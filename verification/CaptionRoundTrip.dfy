/**
 What the caption carries: the parser's results are always clean, and parsing a printed caption gives
 the metadata back, up to its normal form, exactly when a condition on its fields holds.
 */
module CaptionRoundTrip {
  import opened Options
  import opened GoStrings
  import opened Caption

  /** What a caption is meant to carry of m. */
  function Normalized(m: TrackMeta): TrackMeta {
    m.(appleURL := "", kind := Canonical(m.kind, "track"), lyricsSync := Canonical(m.lyricsSync, "none"),
       variant := if m.variant == "" then VariantKey(m.format) else m.variant)
  }

  predicate Clean(s: string) {
    Trimmed(s) && '\n' !in s
  }

  predicate HumanClean(h: Human) {
    Clean(h.title) && Clean(h.artist) && Clean(h.album)
  }

  function HumanOf(m: TrackMeta): Human {
    Human(m.title, m.artist, m.album)
  }

  predicate TagClean(m: TrackMeta) {
    && NoSpace(m.isrc) && NoSpace(m.format) && NoSpace(m.storefront)
    && NoSpace(m.kind) && NoSpace(m.lyricsSync) && NoSpace(m.variant)
  }

  /** No dash separator in the title, and none made where the title meets its own. */
  predicate TitleSeparable(title: string, artist: string) {
    if artist == "" then Index(title, DASH) < 0
    else title != "" && Index(title + DASH, DASH) == |title|
  }

  /** The last dot separator of the line is the one the printer wrote, if it wrote one. */
  predicate AlbumSeparable(album: string, tail: string) {
    if tail == "" then LastIndex(album, DOT) < 0 else LastIndex(album + tail, DOT) == |album|
  }

  predicate Separable(m: TrackMeta, shown: Shown) {
    TitleSeparable(m.title, m.artist) && (m.album != "" ==> AlbumSeparable(m.album, AlbumTail(m, shown)))
  }

  predicate IsInt64(n: int) {
    -MAX_INT64 - 1 <= n <= MAX_INT64
  }

  /** The source's integer fields are machine integers. */
  predicate InRange(m: TrackMeta) {
    && IsInt64(m.appleTrackID) && IsInt64(m.appleAlbumID) && IsInt64(m.bitrate) && IsInt64(m.sampleRate)
    && IsInt64(m.bitDepth) && IsInt64(m.durationSec) && IsInt64(m.sizeBytes)
  }

  /** What upper-casing and the kHz rendering keep. */
  predicate Renders(m: TrackMeta, shown: Shown) {
    && (shown.upperFormat == "" <==> m.format == "")
    && (NoSpace(m.format) ==> NoSpace(shown.upperFormat))
    && NoSpace(shown.kHz)
  }

  // ---- whatever is parsed is clean ----------------------------------------

  lemma {:induction false} TrimLeftIsSuffix(s: string)
    ensures |TrimLeft(s)| <= |s| && TrimLeft(s) == s[|s| - |TrimLeft(s)|..]
    ensures TrimLeft(s) == "" || !IsSpace(TrimLeft(s)[0])
  {
    if s != "" && IsSpace(s[0]) {
      TrimLeftIsSuffix(s[1..]);
    }
  }

  lemma TrimClean(s: string)
    requires '\n' !in s
    ensures Clean(TrimSpace(s)) && |TrimSpace(s)| <= |s|
  {
    TrimLeftIsSuffix(s);
    var t := TrimLeft(s);
    TrimRightIsPrefix(t);
    assert forall c :: c in t ==> c in s;
    assert forall c :: c in TrimRight(t) ==> c in t;
  }

  lemma {:induction false} LinesHaveNoNewline(s: string)
    ensures forall i :: 0 <= i < |SplitLines(s)| ==> '\n' !in SplitLines(s)[i]
  {
    if s != "" {
      LinesHaveNoNewline(s[1..]);
      var rest := SplitLines(s[1..]);
      forall i | 0 <= i < |SplitLines(s)| ensures '\n' !in SplitLines(s)[i] {
        if s[0] == '\n' {
          assert i > 0 ==> SplitLines(s)[i] == rest[i - 1];
        } else {
          assert i > 0 ==> SplitLines(s)[i] == rest[i];
        }
      }
    }
  }

  lemma CutClean(s: string, i: int, j: int)
    requires '\n' !in s && 0 <= i <= j <= |s|
    ensures Clean(TrimSpace(s[i..j]))
  {
    assert '\n' !in s[i..j];
    TrimClean(s[i..j]);
  }

  lemma WithTitleClean(h: Human, rest: string)
    requires HumanClean(h) && Clean(rest)
    ensures HumanClean(WithTitle(h, rest))
  {
    var i := Index(rest, DASH);
    if i >= 0 {
      CutClean(rest, 0, i);
      CutClean(rest, i + |DASH|, |rest|);
      assert rest[0..i] == rest[..i] && rest[i + |DASH|..|rest|] == rest[i + |DASH|..];
    }
  }

  lemma WithAlbumClean(h: Human, rest: string)
    requires HumanClean(h) && Clean(rest)
    ensures HumanClean(WithAlbum(h, rest))
  {
    var i := LastIndex(rest, DOT);
    if i >= 0 {
      CutClean(rest, 0, i);
      assert rest[0..i] == rest[..i];
    }
  }

  lemma WithLineClean(h: Human, line: string)
    requires HumanClean(h) && '\n' !in line
    ensures HumanClean(WithLine(h, line))
  {
    TrimClean(line);
    var l := TrimSpace(line);
    if l != "" {
      CutClean(l, 1, |l|);
      assert l[1..|l|] == l[1..];
      WithTitleClean(h, TrimSpace(l[1..]));
      WithAlbumClean(h, TrimSpace(l[1..]));
    }
  }

  lemma {:induction false} WithLinesClean(h: Human, lines: seq<string>)
    requires HumanClean(h) && forall i :: 0 <= i < |lines| ==> '\n' !in lines[i]
    ensures HumanClean(WithLines(h, lines))
    decreases |lines|
  {
    if lines != [] {
      WithLineClean(h, lines[0]);
      WithLinesClean(WithLine(h, lines[0]), lines[1..]);
    }
  }

  lemma {:induction false} WordIsWord(s: string)
    ensures NoSpace(Word(s)) && (s != "" && !IsSpace(s[0]) ==> Word(s) != "")
  {
    if s != "" && !IsSpace(s[0]) {
      WordIsWord(s[1..]);
    }
  }

  lemma {:induction false} FieldsAreWords(s: string)
    ensures forall i :: 0 <= i < |Fields(s)| ==> IsWord(Fields(s)[i])
    decreases |s|
  {
    if s != "" {
      if IsSpace(s[0]) {
        FieldsAreWords(s[1..]);
      } else {
        WordIsWord(s);
        WordLength(s);
        FieldsAreWords(s[|Word(s)|..]);
      }
    }
  }

  lemma {:induction false} CutNoSpace(s: string)
    requires NoSpace(s)
    ensures NoSpace(Cut(s).0) && NoSpace(Cut(s).1)
  {
    if s != "" && s[0] != '=' {
      CutNoSpace(s[1..]);
    }
  }

  lemma {:induction false} TokensNoSpace(kv: KV, toks: seq<string>)
    requires forall k :: k in kv ==> NoSpace(kv[k])
    requires forall i :: 0 <= i < |toks| ==> IsWord(toks[i])
    ensures forall k :: k in WithTokens(kv, toks) ==> NoSpace(WithTokens(kv, toks)[k])
    decreases |toks|
  {
    if toks != [] {
      CutNoSpace(toks[0]);
      TokensNoSpace(WithToken(kv, toks[0]), toks[1..]);
    }
  }

  lemma MetaIsClean(kv: KV, h: Human)
    requires HumanClean(h) && forall k :: k in kv ==> NoSpace(kv[k])
    ensures HumanClean(HumanOf(MetaOf(kv, h))) && TagClean(MetaOf(kv, h))
  {
    ValuesNoSpace(kv, "isrc");
    ValuesNoSpace(kv, "fmt");
    ValuesNoSpace(kv, "sf");
    ValuesNoSpace(kv, "kind");
    ValuesNoSpace(kv, "lrc");
    ValuesNoSpace(kv, "var");
    VariantNoSpace(Value(kv, "fmt"));
    assert HumanOf(MetaOf(kv, h)) == h;
  }

  lemma ValuesNoSpace(kv: KV, key: string)
    requires forall k :: k in kv ==> NoSpace(kv[k])
    ensures NoSpace(Value(kv, key)) && NoSpace(Canonical(Value(kv, key), "track")) && NoSpace(Canonical(Value(kv, key), "none"))
  {
  }

  lemma VariantNoSpace(format: string)
    ensures NoSpace(VariantKey(format))
  {
    var tier := QualityTier(format);
    assert NoSpace("v1|q=") && NoSpace(tier);
    assert forall i :: 5 <= i < 5 + |tier| ==> ("v1|q=" + tier)[i] == tier[i - 5];
  }

  /** Any text at all: trimmed one-line human fields, and tag values without white space. */
  lemma ParsedIsClean(s: string)
    ensures Parsed(s).Some? ==> HumanClean(HumanOf(Parsed(s).value)) && TagClean(Parsed(s).value) && Parsed(s).value.appleURL == ""
  {
    var lines := SplitLines(s);
    LinesHaveNoNewline(s);
    WithLinesClean(Human("", "", ""), lines);
    var toks := Fields(FindTagLine(lines));
    FieldsAreWords(FindTagLine(lines));
    TokensNoSpace(map[], toks);
    MetaIsClean(WithTokens(map[], toks), WithLines(Human("", "", ""), lines));
  }

  // ---- the tag line -------------------------------------------------------

  lemma NumberRoundTrip(n: int)
    requires IsInt64(n)
    ensures Atoi(Number(n)) == n && NoSpace(Number(n))
  {
    ItoaRoundTrip(n);
  }

  predicate GoodPair(p: (string, string)) {
    IsWord(p.0) && '=' !in p.0 && NoSpace(p.1)
  }

  predicate Distinct(pairs: seq<(string, string)>) {
    forall i, j :: 0 <= i < j < |pairs| ==> pairs[i].0 != pairs[j].0
  }

  lemma {:induction false} TokensAreWords(pairs: seq<(string, string)>)
    requires forall i :: 0 <= i < |pairs| ==> GoodPair(pairs[i])
    ensures forall i :: 0 <= i < |Tokens(pairs)| ==> IsWord(Tokens(pairs)[i])
  {
    if pairs != [] {
      TokensAreWords(pairs[1..]);
      assert IsWord(pairs[0].0 + "=" + pairs[0].1);
    }
  }

  lemma PairRead(kv: KV, p: (string, string))
    requires '=' !in p.0
    ensures WithToken(kv, p.0 + "=" + p.1) == kv[p.0 := p.1]
  {
    CutPair(p.0, p.1);
    var tok := p.0 + "=" + p.1;
    assert tok[|p.0|] == '=' && '=' in tok;
    assert '=' !in TAG;
  }

  lemma {:induction false} PairsRead(kv: KV, pairs: seq<(string, string)>)
    requires Distinct(pairs) && forall i :: 0 <= i < |pairs| ==> GoodPair(pairs[i]) && pairs[i].0 !in kv
    ensures forall i :: 0 <= i < |pairs| ==> Value(WithTokens(kv, Tokens(pairs)), pairs[i].0) == pairs[i].1
    ensures forall k :: (forall i :: 0 <= i < |pairs| ==> pairs[i].0 != k) ==> Value(WithTokens(kv, Tokens(pairs)), k) == Value(kv, k)
    decreases |pairs|
  {
    if pairs != [] {
      var p, rest := pairs[0], pairs[1..];
      var next := if p.1 == "" then kv else kv[p.0 := p.1];
      PairRead(kv, p);
      StepTokens(kv, pairs);
      assert forall i :: 0 <= i < |rest| ==> rest[i] == pairs[i + 1];
      PairsRead(next, rest);
      forall i | 0 <= i < |pairs| ensures Value(WithTokens(kv, Tokens(pairs)), pairs[i].0) == pairs[i].1 {
        if i > 0 {
          assert pairs[i] == rest[i - 1];
        }
      }
    }
  }

  lemma StepTokens(kv: KV, pairs: seq<(string, string)>)
    requires pairs != []
    ensures WithTokens(kv, Tokens(pairs)) ==
            WithTokens(if pairs[0].1 == "" then kv else WithToken(kv, pairs[0].0 + "=" + pairs[0].1), Tokens(pairs[1..]))
  {
    var tok, rest := pairs[0].0 + "=" + pairs[0].1, Tokens(pairs[1..]);
    assert ([tok] + rest)[1..] == rest && [] + rest == rest;
  }

  const KEYS := ["kind", "adam", "album", "isrc", "fmt", "br", "sr", "bd", "sf", "dur", "sz", "lrc", "cov", "var"]

  function Code(key: string): (int, int) {
    (if key == "" then 0 else key[0] as int, if |key| < 2 then 0 else key[1] as int)
  }

  lemma KeysAreWords()
    ensures forall i :: 0 <= i < |KEYS| ==> IsWord(KEYS[i]) && '=' !in KEYS[i] && KEYS[i] != "v"
  {
  }

  lemma KeysDiffer()
    ensures forall i, j :: 0 <= i < j < |KEYS| ==> KEYS[i] != KEYS[j]
  {
    assert forall i, j :: 0 <= i < j < |KEYS| ==> Code(KEYS[i]) != Code(KEYS[j]);
  }

  lemma NumbersNoSpace(m: TrackMeta)
    requires InRange(m)
    ensures NoSpace(Number(m.appleTrackID)) && NoSpace(Number(m.appleAlbumID)) && NoSpace(Number(m.bitrate)) && NoSpace(Number(m.sampleRate))
    ensures NoSpace(Number(m.bitDepth)) && NoSpace(Number(m.durationSec)) && NoSpace(Number(m.sizeBytes))
  {
    NumberRoundTrip(m.appleTrackID);
    NumberRoundTrip(m.appleAlbumID);
    NumberRoundTrip(m.bitrate);
    NumberRoundTrip(m.sampleRate);
    NumberRoundTrip(m.bitDepth);
    NumberRoundTrip(m.durationSec);
    NumberRoundTrip(m.sizeBytes);
  }

  lemma PairsHaveKeys(m: TrackMeta)
    ensures |TagPairs(m)| == |KEYS| && forall i :: 0 <= i < |KEYS| ==> TagPairs(m)[i].0 == KEYS[i]
  {
  }

  lemma PairValuesNoSpace(m: TrackMeta, i: nat)
    requires TagClean(m) && InRange(m) && i < |TagPairs(m)|
    ensures NoSpace(TagPairs(m)[i].1)
  {
    NumbersNoSpace(m);
    PairsListed(m);
    assert NoSpace("1");
  }

  lemma PairsAreGood(m: TrackMeta)
    requires TagClean(m) && InRange(m)
    ensures Distinct(TagPairs(m)) && forall i :: 0 <= i < |TagPairs(m)| ==> GoodPair(TagPairs(m)[i]) && TagPairs(m)[i].0 != "v"
  {
    KeysAreWords();
    KeysDiffer();
    PairsHaveKeys(m);
    forall i | 0 <= i < |TagPairs(m)| ensures GoodPair(TagPairs(m)[i]) && TagPairs(m)[i].0 != "v" {
      PairValuesNoSpace(m, i);
      assert TagPairs(m)[i].0 == KEYS[i];
    }
  }

  function TagMap(m: TrackMeta): KV {
    WithTokens(map[], Fields(TagLine(m)))
  }

  lemma TagLineShape(m: TrackMeta)
    requires TagClean(m) && InRange(m)
    ensures Clean(TagLine(m)) && HasPrefix(TagLine(m), TAG) && TrimSpace(TagLine(m)) == TagLine(m)
    ensures Fields(TagLine(m)) == [TAG, "v=1"] + Tokens(TagPairs(m))
  {
    PairsAreGood(m);
    TokensAreWords(TagPairs(m));
    var words := ["v=1"] + Tokens(TagPairs(m));
    assert IsWord(TAG) && IsWord("v=1");
    FieldsFirst(TAG, words);
    SpacedEnds(words);
    assert TagLine(m)[0] == '#';
    TrimOfTrimmed(TagLine(m));
    assert [TAG] + words == [TAG, "v=1"] + Tokens(TagPairs(m));
  }

  lemma TagMapReads(m: TrackMeta)
    requires TagClean(m) && InRange(m)
    ensures forall i :: 0 <= i < |TagPairs(m)| ==> Value(TagMap(m), TagPairs(m)[i].0) == TagPairs(m)[i].1
  {
    PairsAreGood(m);
    TagLineShape(m);
    AfterVersion(Tokens(TagPairs(m)));
    PairsRead(map["v" := "1"], TagPairs(m));
  }

  lemma AfterVersion(toks: seq<string>)
    ensures WithTokens(map[], [TAG, "v=1"] + toks) == WithTokens(map["v" := "1"], toks)
  {
    var all := [TAG, "v=1"] + toks;
    assert all[1..] == ["v=1"] + toks && (["v=1"] + toks)[1..] == toks;
    PairRead(map[], ("v", "1"));
    assert "v" + "=" + "1" == "v=1";
  }

  /** The tag line alone brings back every identity and quality field. */
  lemma TagRoundTrip(m: TrackMeta)
    requires TagClean(m) && InRange(m)
    ensures MetaOf(TagMap(m), HumanOf(m)) == Normalized(m)
  {
    TagMapReads(m);
    PairsListed(m);
    NumberRoundTrip(m.appleTrackID);
    NumberRoundTrip(m.appleAlbumID);
    NumberRoundTrip(m.bitrate);
    NumberRoundTrip(m.sampleRate);
    NumberRoundTrip(m.bitDepth);
    NumberRoundTrip(m.durationSec);
    NumberRoundTrip(m.sizeBytes);
  }

  // ---- the human block ----------------------------------------------------

  lemma {:induction false} TrimKeepsCore(s: string, n: nat)
    requires 0 < n <= |s| && !IsSpace(s[0]) && !IsSpace(s[n - 1])
    ensures |TrimSpace(s)| >= n && TrimSpace(s)[0] == s[0]
  {
    if IsSpace(s[|s| - 1]) {
      assert s[..|s| - 1][0] == s[0] && s[..|s| - 1][n - 1] == s[n - 1];
      TrimKeepsCore(s[..|s| - 1], n);
      assert TrimSpace(s[..|s| - 1]) == TrimRight(s[..|s| - 1]);
    }
  }

  lemma TrimShorter(s: string, i: int)
    requires 0 <= i <= |s| && '\n' !in s
    ensures |TrimSpace(s[..i])| <= i
  {
    TrimClean(s[..i]);
  }

  /** What follows the note or disc sign and a space, when it is trimmed. */
  lemma MarkedLine(mark: char, body: string)
    requires !IsSpace(mark) && Trimmed(body) && body != ""
    ensures TrimSpace([mark] + " " + body) == [mark] + " " + body
    ensures TrimSpace(([mark] + " " + body)[1..]) == body
  {
    var l := [mark] + " " + body;
    TrimOfTrimmed(l);
    TrimOfTrimmed(body);
    assert l[1..] == " " + body;
  }

  /** A separator that starts before t ends lies in t and the separator after it. */
  lemma IndexBefore(t: string, a: string)
    ensures Index(t + DASH + a, DASH) == |t| <==> Index(t + DASH, DASH) == |t|
    ensures 0 <= Index(t + DASH + a, DASH) <= |t|
  {
    var s, u := t + DASH + a, t + DASH;
    assert s[|t|..|t| + 3] == DASH && At(s, DASH, |t|);
    assert u[|t|..|t| + 3] == DASH && At(u, DASH, |t|);
    forall j | 0 <= j <= |t| ensures At(s, DASH, j) == At(u, DASH, j) {
      assert s[j..j + 3] == u[j..j + 3];
    }
  }

  lemma TitleRead(title: string, artist: string)
    requires Clean(title) && Clean(artist) && (title != "" || artist != "")
    ensures WithLine(Human("", "", ""), TitleLine(title, artist)).album == ""
    ensures WithLine(Human("", "", ""), TitleLine(title, artist)) == Human(title, artist, "") <==> TitleSeparable(title, artist)
  {
    if title == "" {
      NoTitle(artist);
    } else if artist == "" {
      TitleOnly(title);
    } else {
      TitleAndArtist(title, artist);
    }
  }

  lemma TitleOnly(title: string)
    requires Clean(title) && title != ""
    ensures WithLine(Human("", "", ""), TitleLine(title, "")).album == ""
    ensures WithLine(Human("", "", ""), TitleLine(title, "")) == Human(title, "", "") <==> TitleSeparable(title, "")
  {
    MarkedLine(NOTE, title);
    assert TitleLine(title, "") == [NOTE] + " " + title;
    var i := Index(title, DASH);
    if i >= 0 {
      TrimShorter(title, i);
    }
  }

  lemma TitleAndArtist(title: string, artist: string)
    requires Clean(title) && Clean(artist) && title != "" && artist != ""
    ensures WithLine(Human("", "", ""), TitleLine(title, artist)).album == ""
    ensures WithLine(Human("", "", ""), TitleLine(title, artist)) == Human(title, artist, "") <==> TitleSeparable(title, artist)
  {
    var body := title + DASH + artist;
    MarkedLine(NOTE, body);
    assert TitleLine(title, artist) == [NOTE] + " " + body;
    IndexBefore(title, artist);
    SplitAtDash(title, artist);
  }

  lemma SplitAtDash(title: string, artist: string)
    requires Clean(title) && Clean(artist) && title != "" && artist != "" && 0 <= Index(title + DASH + artist, DASH) <= |title|
    ensures var h := WithTitle(Human("", "", ""), title + DASH + artist);
            h.album == "" && (h == Human(title, artist, "") <==> Index(title + DASH + artist, DASH) == |title|)
  {
    var body := title + DASH + artist;
    assert '\n' !in body;
    var i := Index(body, DASH);
    if i == |title| {
      assert body[..i] == title && body[i + 3..] == artist;
      TrimOfTrimmed(title);
      TrimOfTrimmed(artist);
    } else {
      TrimShorter(body, i);
    }
  }

  lemma NoTitle(artist: string)
    requires Clean(artist) && artist != ""
    ensures WithLine(Human("", "", ""), TitleLine("", artist)).title != ""
    ensures WithLine(Human("", "", ""), TitleLine("", artist)).album == ""
  {
    var line, rest := TitleLine("", artist), "\U{2014} " + artist;
    assert line[0] == NOTE && line[1..] == " " + (" " + rest);
    TrimOfTrimmed(line);
    assert TrimSpace(line) == line && HasPrefix(line, [NOTE]);
    TwoSpaces(rest);
    DashFirst(rest);
  }

  lemma TwoSpaces(rest: string)
    requires Trimmed(rest) && rest != ""
    ensures TrimSpace(" " + (" " + rest)) == rest
  {
    TrimOfTrimmed(rest);
    assert (" " + (" " + rest))[1..] == " " + rest;
  }

  lemma DashFirst(rest: string)
    requires rest != "" && rest[0] == '\U{2014}'
    ensures WithTitle(Human("", "", ""), rest).title != "" && WithTitle(Human("", "", ""), rest).album == ""
  {
    var i := Index(rest, DASH);
    if i >= 0 {
      assert rest[i..i + 3][0] == DASH[0];
      TrimKeepsCore(rest[..i], 1);
    }
  }

  predicate GoodTail(tail: string) {
    tail == "" || (|tail| > 3 && tail[..3] == DOT && !IsSpace(tail[|tail| - 1]) && '\n' !in tail)
  }

  lemma AlbumRead(h: Human, album: string, tail: string)
    requires Clean(album) && album != "" && GoodTail(tail)
    ensures WithLine(h, AlbumLine(album, tail)) == h.(album := album) <==> AlbumSeparable(album, tail)
    ensures WithLine(h, AlbumLine(album, tail)) == h.(album := WithLine(h, AlbumLine(album, tail)).album)
  {
    var body := album + tail;
    MarkedLine(DISC, body);
    assert AlbumLine(album, tail) == [DISC] + " " + body;
    if tail == "" {
      assert body == album;
      AlbumAlone(h, album);
    } else {
      AlbumWithTail(h, album, tail);
    }
  }

  lemma AlbumAlone(h: Human, album: string)
    requires Clean(album) && album != ""
    ensures WithAlbum(h, album) == h.(album := album) <==> LastIndex(album, DOT) < 0
  {
    var i := LastIndex(album, DOT);
    if i >= 0 {
      TrimShorter(album, i);
    }
  }

  lemma AlbumWithTail(h: Human, album: string, tail: string)
    requires Clean(album) && album != "" && GoodTail(tail) && tail != ""
    ensures WithAlbum(h, album + tail) == h.(album := album) <==> LastIndex(album + tail, DOT) == |album|
  {
    var body := album + tail;
    var i := LastIndex(body, DOT);
    assert body[|album|..|album| + 3] == tail[..3] && At(body, DOT, |album|);
    AtDot(body, |album|);
    if i == |album| {
      assert body[..i] == album;
      TrimOfTrimmed(album);
    } else {
      AtDot(body, i);
      assert body[..i][|album| + 1] == '\U{00B7}' && body[..i][0] == album[0];
      TrimKeepsCore(body[..i], |album| + 2);
    }
  }

  lemma DigitsNoNewline(n: nat)
    ensures '\n' !in Digits(n)
  {
    DigitsRoundTrip(n);
    forall i | 0 <= i < |Digits(n)| ensures Digits(n)[i] != '\n' {
      assert IsDigit(Digits(n)[i]);
    }
  }

  lemma NoSpaceNoNewline(s: string)
    requires NoSpace(s)
    ensures '\n' !in s
  {
    forall i | 0 <= i < |s| ensures s[i] != '\n' {
      assert !IsSpace(s[i]);
    }
  }

  lemma QualityShape(m: TrackMeta, kHz: string)
    requires NoSpace(kHz)
    ensures var q := HumanQuality(m, kHz); '\n' !in q && (q == "" || !IsSpace(q[|q| - 1]))
  {
    NoSpaceNoNewline(kHz);
    if m.bitrate > 0 { DigitsNoNewline(m.bitrate); }
    if m.bitDepth > 0 { DigitsNoNewline(m.bitDepth); }
  }

  lemma TailIsGood(m: TrackMeta, shown: Shown)
    requires NoSpace(shown.upperFormat) && NoSpace(shown.kHz)
    ensures GoodTail(AlbumTail(m, shown))
  {
    var up, tail := shown.upperFormat, AlbumTail(m, shown);
    if up != "" {
      QualityShape(m, shown.kHz);
      NoSpaceNoNewline(up);
      assert tail[..3] == DOT;
    }
  }

  lemma HumanRead(m: TrackMeta, shown: Shown)
    requires HumanClean(HumanOf(m)) && NoSpace(shown.upperFormat) && NoSpace(shown.kHz)
    ensures WithLines(Human("", "", ""), HumanLines(m, shown)) == HumanOf(m) <==> Separable(m, shown)
  {
    var h0, tail := Human("", "", ""), AlbumTail(m, shown);
    var first := if m.title != "" || m.artist != "" then [TitleLine(m.title, m.artist)] else [];
    var h1 := if first == [] then h0 else WithLine(h0, first[0]);
    FewLines(h0, first, if m.album != "" then [AlbumLine(m.album, tail)] else []);
    if first != [] {
      TitleRead(m.title, m.artist);
    }
    assert h1.album == "" && (h1 == Human(m.title, m.artist, "") <==> TitleSeparable(m.title, m.artist));
    if m.album != "" {
      TailIsGood(m, shown);
      AlbumRead(h1, m.album, tail);
    }
  }

  lemma HumanLinesAreMarked(m: TrackMeta, shown: Shown)
    requires HumanClean(HumanOf(m)) && NoSpace(shown.upperFormat) && NoSpace(shown.kHz)
    ensures forall i :: 0 <= i < |HumanLines(m, shown)| ==>
              '\n' !in HumanLines(m, shown)[i] && HumanLines(m, shown)[i] != "" && HumanLines(m, shown)[i][0] in {NOTE, DISC}
  {
    TailIsGood(m, shown);
  }

  lemma FewLines(h: Human, first: seq<string>, second: seq<string>)
    requires |first| <= 1 && |second| <= 1
    ensures var h1 := if first == [] then h else WithLine(h, first[0]);
            WithLines(h, first + second) == if second == [] then h1 else WithLine(h1, second[0])
  {
    assert first != [] ==> (first + second)[1..] == second;
    assert first == [] ==> first + second == second;
    var h1 := if first == [] then h else WithLine(h, first[0]);
    assert WithLines(h, first + second) == WithLines(h1, second);
    assert second != [] ==> second[1..] == [];
    assert second != [] ==> WithLines(h1, second) == WithLines(WithLine(h1, second[0]), []);
  }

  // ---- the whole caption --------------------------------------------------

  lemma {:induction false} SplitUnlines(lines: seq<string>, tag: string)
    requires '\n' !in tag && forall i :: 0 <= i < |lines| ==> '\n' !in lines[i]
    ensures SplitLines(Unlines(lines) + "\n" + tag) == lines + ["", tag]
  {
    if lines == [] {
      SplitFirstLine("", tag);
      SplitFirstLine(tag, "");
      assert "" + "\n" + tag == Unlines(lines) + "\n" + tag;
    } else {
      SplitUnlines(lines[1..], tag);
      SplitFirstLine(lines[0], Unlines(lines[1..]) + "\n" + tag);
      assert lines[0] + "\n" + (Unlines(lines[1..]) + "\n" + tag) == Unlines(lines) + "\n" + tag;
      assert [lines[0]] + (lines[1..] + ["", tag]) == lines + ["", tag];
    }
  }

  /** The parser finds the printed tag line below any human lines, and reads only those as human. */
  lemma {:induction false} LinesBeforeTag(h: Human, lines: seq<string>, tag: string)
    requires forall i :: 0 <= i < |lines| ==> lines[i] != "" && lines[i][0] in {NOTE, DISC}
    requires HasPrefix(tag, TAG) && TrimSpace(tag) == tag
    ensures FindTagLine(lines + ["", tag]) == tag
    ensures WithLines(h, lines + ["", tag]) == WithLines(h, lines)
    decreases |lines|
  {
    var all := lines + ["", tag];
    if lines == [] {
      assert all == ["", tag] && all[1..] == [tag] && [tag][1..] == [];
      assert tag[0] == '#';
      assert WithLine(h, "") == h && WithLine(h, tag) == h;
      assert WithLines(h, all) == WithLines(WithLine(h, ""), [tag]) == WithLines(WithLine(h, tag), []);
      assert FindTagLine(all) == FindTagLine([tag]);
    } else {
      assert all[1..] == lines[1..] + ["", tag] && all[0] == lines[0];
      TrimKeepsCore(lines[0], 1);
      assert TrimSpace(lines[0])[0] != TAG[0];
      LinesBeforeTag(WithLine(h, lines[0]), lines[1..], tag);
    }
  }

  lemma ParsedOfPrinted(m: TrackMeta, shown: Shown)
    requires TagClean(m) && HumanClean(HumanOf(m)) && InRange(m) && Renders(m, shown)
    ensures Parsed(CaptionText(m, shown)) == Some(MetaOf(TagMap(m), WithLines(Human("", "", ""), HumanLines(m, shown))))
  {
    HumanLinesAreMarked(m, shown);
    TagLineShape(m);
    SplitUnlines(HumanLines(m, shown), TagLine(m));
    LinesBeforeTag(Human("", "", ""), HumanLines(m, shown), TagLine(m));
  }

  /** Parsing undoes printing, up to the normal form, exactly for clean fields that separate. */
  lemma RoundTripIff(m: TrackMeta, shown: Shown)
    requires InRange(m) && Renders(m, shown)
    ensures Parsed(CaptionText(m, shown)) == Some(Normalized(m)) <==>
            TagClean(m) && HumanClean(HumanOf(m)) && Separable(m, shown)
  {
    ParsedIsClean(CaptionText(m, shown));
    if TagClean(m) && HumanClean(HumanOf(m)) {
      ParsedOfPrinted(m, shown);
      TagRoundTrip(m);
      HumanRead(m, shown);
      var h := WithLines(Human("", "", ""), HumanLines(m, shown));
      assert MetaOf(TagMap(m), h) == Normalized(m).(title := h.title, artist := h.artist, album := h.album);
    }
  }

  lemma NormalizedIsAsClean(m: TrackMeta)
    requires TagClean(m)
    ensures TagClean(Normalized(m)) && Normalized(Normalized(m)) == Normalized(m)
  {
    VariantNoSpace(m.format);
  }

  lemma NormalizedSeparates(m: TrackMeta, shown: Shown)
    ensures Separable(Normalized(m), shown) == Separable(m, shown)
  {
    assert HumanQuality(Normalized(m), shown.kHz) == HumanQuality(m, shown.kHz);
  }

  /** What one round trip gives, the next gives again. */
  lemma RoundTripIsIdempotent(m: TrackMeta, shown: Shown)
    requires InRange(m) && Renders(m, shown)
    requires TagClean(m) && HumanClean(HumanOf(m)) && Separable(m, shown)
    ensures Parsed(CaptionText(m, shown)) == Some(Normalized(m))
    ensures Parsed(CaptionText(Normalized(m), shown)) == Some(Normalized(m))
  {
    RoundTripIff(m, shown);
    NormalizedIsAsClean(m);
    NormalizedSeparates(m, shown);
    assert HumanOf(Normalized(m)) == HumanOf(m);
    RoundTripIff(Normalized(m), shown);
  }

  /** A usual format leaves only the album's own text to look at. */
  lemma UsualTail(m: TrackMeta, shown: Shown)
    requires shown.upperFormat != "" && '\U{00B7}' !in shown.upperFormat && '\U{00B7}' !in shown.kHz
    ensures AlbumSeparable(m.album, AlbumTail(m, shown))
  {
    var tail := AlbumTail(m, shown);
    var s := m.album + tail;
    assert '\U{00B7}' !in HumanQuality(m, shown.kHz) by {
      DigitsNoDot(if m.bitrate > 0 then m.bitrate else 0);
      DigitsNoDot(if m.bitDepth > 0 then m.bitDepth else 0);
    }
    assert tail[..3] == DOT && s[|m.album|..|m.album| + 3] == DOT && At(s, DOT, |m.album|);
    assert '\U{00B7}' !in tail[2..];
    forall j | |m.album| < j <= |s| ensures !At(s, DOT, j) {
      AtDot(s, j);
      assert j + 1 < |s| ==> s[j + 1] == tail[2..][j - |m.album| - 1];
    }
  }

  lemma AtDot(s: string, j: int)
    ensures At(s, DOT, j) ==> s[j] == ' ' && s[j + 1] == '\U{00B7}'
  {
    assert At(s, DOT, j) ==> s[j..j + 3][0] == DOT[0] && s[j..j + 3][1] == DOT[1];
  }

  lemma DigitsNoDot(n: nat)
    ensures '\U{00B7}' !in Digits(n)
  {
    DigitsRoundTrip(n);
    forall i | 0 <= i < |Digits(n)| ensures Digits(n)[i] != '\U{00B7}' {
      assert IsDigit(Digits(n)[i]);
    }
  }
}
