/**
 The dump caption of bot/catalog/caption.go and bot/catalog/meta.go: a printer with omitted
 defaults, its parser, and the exact condition under which the parser undoes the printer.
 Two renderings inside the human block, the upper-cased format and the sample rate in kHz, are
 made by Go's library and never parsed back; they are parameters.
 */
module Caption {
  import opened Options
  import opened GoStrings

  datatype TrackMeta = TrackMeta(
    appleTrackID: int, appleAlbumID: int, appleURL: string, isrc: string,
    title: string, artist: string, album: string,
    format: string, bitrate: int, sampleRate: int, bitDepth: int, storefront: string, durationSec: int, sizeBytes: int,
    kind: string, lyricsSync: string, coverEmbedded: bool, variant: string)

  datatype Shown = Shown(upperFormat: string, kHz: string)

  type KV = map<string, string>

  const TAG := "#karenidx"
  const NOTE: char := '\U{1F3B5}'
  const DISC: char := '\U{1F4BF}'
  const DASH := " \U{2014} "
  const DOT := " \U{00B7} "

  // ---- cache identity -----------------------------------------------------

  /** Lower case as far as the tier names can tell. */
  function ToLower(s: string): string {
    seq(|s|, i requires 0 <= i < |s| => if 'A' <= s[i] <= 'Z' then (s[i] as int + 32) as char else s[i])
  }

  function QualityTier(format: string): string {
    var f := ToLower(TrimSpace(format));
    if f == "alac" || f == "flac" || f == "lossless" then "lossless"
    else if f == "aac" then "aac"
    else if f == "atmos" then "atmos"
    else ""
  }

  /** "" for a format that is not cached. */
  function VariantKey(format: string): string {
    var tier := QualityTier(format);
    if tier == "" then "" else "v1|q=" + tier
  }

  // ---- printing -----------------------------------------------------------

  function HumanQuality(m: TrackMeta, kHz: string): string {
    if m.format == "aac" then (if m.bitrate > 0 then Itoa(m.bitrate) + "kbps" else "")
    else if m.bitDepth > 0 && m.sampleRate > 0 then Itoa(m.bitDepth) + "-bit/" + kHz + "kHz"
    else ""
  }

  function TitleLine(title: string, artist: string): string {
    [NOTE] + " " + title + if artist != "" then DASH + artist else ""
  }

  function AlbumTail(m: TrackMeta, shown: Shown): string {
    if shown.upperFormat == "" then ""
    else
      var q := HumanQuality(m, shown.kHz);
      DOT + shown.upperFormat + if q != "" then " " + q else ""
  }

  function AlbumLine(album: string, tail: string): string {
    [DISC] + " " + album + tail
  }

  function HumanLines(m: TrackMeta, shown: Shown): seq<string> {
    (if m.title != "" || m.artist != "" then [TitleLine(m.title, m.artist)] else []) +
    (if m.album != "" then [AlbumLine(m.album, AlbumTail(m, shown))] else [])
  }

  function Number(n: int): string {
    if n == 0 then "" else Itoa(n)
  }

  function Canonical(v: string, default: string): string {
    if v == "" then default else v
  }

  /** A value that is left out of the tag line, because it is empty or the default, reads "". */
  function TagPairs(m: TrackMeta): seq<(string, string)> {
    [ ("kind", if Canonical(m.kind, "track") == "track" then "" else m.kind),
      ("adam", Number(m.appleTrackID)),
      ("album", Number(m.appleAlbumID)),
      ("isrc", m.isrc),
      ("fmt", m.format),
      ("br", Number(m.bitrate)),
      ("sr", Number(m.sampleRate)),
      ("bd", Number(m.bitDepth)),
      ("sf", m.storefront),
      ("dur", Number(m.durationSec)),
      ("sz", Number(m.sizeBytes)),
      ("lrc", if Canonical(m.lyricsSync, "none") == "none" then "" else m.lyricsSync),
      ("cov", if m.coverEmbedded then "1" else ""),
      ("var", m.variant) ]
  }

  function Tokens(pairs: seq<(string, string)>): seq<string> {
    if pairs == [] then []
    else (if pairs[0].1 == "" then [] else [pairs[0].0 + "=" + pairs[0].1]) + Tokens(pairs[1..])
  }

  function TagLine(m: TrackMeta): string {
    TAG + Spaced(["v=1"] + Tokens(TagPairs(m)))
  }

  function Unlines(lines: seq<string>): string {
    if lines == [] then "" else lines[0] + "\n" + Unlines(lines[1..])
  }

  function CaptionText(m: TrackMeta, shown: Shown): string {
    Unlines(HumanLines(m, shown)) + "\n" + TagLine(m)
  }

  // ---- parsing ------------------------------------------------------------

  predicate HasPrefix(s: string, p: string) {
    p <= s
  }

  function FindTagLine(lines: seq<string>): string {
    if lines == [] then ""
    else if HasPrefix(TrimSpace(lines[0]), TAG) then TrimSpace(lines[0])
    else FindTagLine(lines[1..])
  }

  function WithToken(kv: KV, tok: string): KV {
    var (k, v, ok) := Cut(tok);
    if tok == TAG || !ok then kv else kv[k := v]
  }

  function WithTokens(kv: KV, toks: seq<string>): KV
    decreases |toks|
  {
    if toks == [] then kv else WithTokens(WithToken(kv, toks[0]), toks[1..])
  }

  function Value(kv: KV, key: string): string {
    if key in kv then kv[key] else ""
  }

  datatype Human = Human(title: string, artist: string, album: string)

  function WithTitle(h: Human, rest: string): Human {
    var i := Index(rest, DASH);
    if i >= 0 then h.(title := TrimSpace(rest[..i]), artist := TrimSpace(rest[i + |DASH|..])) else h.(title := rest)
  }

  function WithAlbum(h: Human, rest: string): Human {
    var i := LastIndex(rest, DOT);
    h.(album := if i >= 0 then TrimSpace(rest[..i]) else rest)
  }

  function WithLine(h: Human, line: string): Human {
    var l := TrimSpace(line);
    if HasPrefix(l, [NOTE]) then WithTitle(h, TrimSpace(l[1..]))
    else if HasPrefix(l, [DISC]) then WithAlbum(h, TrimSpace(l[1..]))
    else h
  }

  function WithLines(h: Human, lines: seq<string>): Human
    decreases |lines|
  {
    if lines == [] then h else WithLines(WithLine(h, lines[0]), lines[1..])
  }

  function MetaOf(kv: KV, h: Human): TrackMeta {
    var fmt := Value(kv, "fmt");
    TrackMeta(
      Atoi(Value(kv, "adam")), Atoi(Value(kv, "album")), "", Value(kv, "isrc"),
      h.title, h.artist, h.album,
      fmt, Atoi(Value(kv, "br")), Atoi(Value(kv, "sr")), Atoi(Value(kv, "bd")), Value(kv, "sf"),
      Atoi(Value(kv, "dur")), Atoi(Value(kv, "sz")),
      Canonical(Value(kv, "kind"), "track"), Canonical(Value(kv, "lrc"), "none"), Value(kv, "cov") == "1",
      if Value(kv, "var") == "" then VariantKey(fmt) else Value(kv, "var"))
  }

  function Parsed(s: string): Option<TrackMeta> {
    var lines := SplitLines(s);
    var tagLine := FindTagLine(lines);
    if tagLine == "" then None
    else Some(MetaOf(WithTokens(map[], Fields(tagLine)), WithLines(Human("", "", ""), lines)))
  }

  // ---- the code -----------------------------------------------------------

  /** b holds head and then the first k pairs, each as " key=value" unless its value is empty. */
  ghost predicate Written(b: string, head: string, pairs: seq<(string, string)>, k: int) {
    0 <= k <= |pairs| && b == head + Spaced(Tokens(pairs[..k]))
  }

  method WriteTok(ghost head: string, ghost pairs: seq<(string, string)>, ghost k: nat, b: string, key: string, val: string, omitDefault: string)
    returns (out: string)
    requires k < |pairs| && pairs[k] == (key, if val == omitDefault then "" else val)
    requires Written(b, head, pairs, k)
    ensures Written(out, head, pairs, k + 1)
  {
    TokensSnoc(pairs[..k], pairs[k]);
    assert pairs[..k] + [pairs[k]] == pairs[..k + 1];
    if val == "" || val == omitDefault {
      return b;
    }
    out := b + (" " + key + "=" + val);
    assert out == head + (Spaced(Tokens(pairs[..k])) + (" " + key + "=" + val));
  }

  method WriteStr(ghost head: string, ghost pairs: seq<(string, string)>, ghost k: nat, b: string, key: string, val: string)
    returns (out: string)
    requires k < |pairs| && pairs[k] == (key, val)
    requires Written(b, head, pairs, k)
    ensures Written(out, head, pairs, k + 1)
  {
    out := WriteTok(head, pairs, k, b, key, val, "");
  }

  method WriteInt(ghost head: string, ghost pairs: seq<(string, string)>, ghost k: nat, b: string, key: string, val: int)
    returns (out: string)
    requires k < |pairs| && pairs[k] == (key, Number(val))
    requires Written(b, head, pairs, k)
    ensures Written(out, head, pairs, k + 1)
  {
    out := WriteTok(head, pairs, k, b, key, if val == 0 then "" else Itoa(val), "");
  }

  ghost predicate IdentityPairs(ps: seq<(string, string)>, m: TrackMeta) {
    && |ps| == 14
    && ps[0] == ("kind", if Canonical(m.kind, "track") == "track" then "" else Canonical(m.kind, "track"))
    && ps[1] == ("adam", Number(m.appleTrackID))
    && ps[2] == ("album", Number(m.appleAlbumID))
    && ps[3] == ("isrc", m.isrc)
    && ps[4] == ("fmt", m.format)
  }

  ghost predicate QualityPairs(ps: seq<(string, string)>, m: TrackMeta) {
    && |ps| == 14
    && ps[5] == ("br", Number(m.bitrate))
    && ps[6] == ("sr", Number(m.sampleRate))
    && ps[7] == ("bd", Number(m.bitDepth))
    && ps[8] == ("sf", m.storefront)
    && ps[9] == ("dur", Number(m.durationSec))
    && ps[10] == ("sz", Number(m.sizeBytes))
  }

  method WriteIdentity(ghost h: string, ghost ps: seq<(string, string)>, m: TrackMeta, b0: string) returns (b: string)
    requires IdentityPairs(ps, m) && Written(b0, h, ps, 0)
    ensures Written(b, h, ps, 5)
  {
    b := WriteTok(h, ps, 0, b0, "kind", Canonical(m.kind, "track"), "track");
    b := WriteInt(h, ps, 1, b, "adam", m.appleTrackID);
    b := WriteInt(h, ps, 2, b, "album", m.appleAlbumID);
    b := WriteStr(h, ps, 3, b, "isrc", m.isrc);
    b := WriteStr(h, ps, 4, b, "fmt", m.format);
  }

  method WriteQuality(ghost h: string, ghost ps: seq<(string, string)>, m: TrackMeta, b0: string) returns (b: string)
    requires QualityPairs(ps, m) && Written(b0, h, ps, 5)
    ensures Written(b, h, ps, 11)
  {
    b := WriteInt(h, ps, 5, b0, "br", m.bitrate);
    b := WriteInt(h, ps, 6, b, "sr", m.sampleRate);
    b := WriteInt(h, ps, 7, b, "bd", m.bitDepth);
    b := WriteStr(h, ps, 8, b, "sf", m.storefront);
    b := WriteInt(h, ps, 9, b, "dur", m.durationSec);
    b := WriteInt(h, ps, 10, b, "sz", m.sizeBytes);
  }

  ghost predicate DetailPairs(ps: seq<(string, string)>, m: TrackMeta) {
    && |ps| == 14
    && ps[11] == ("lrc", if Canonical(m.lyricsSync, "none") == "none" then "" else Canonical(m.lyricsSync, "none"))
    && ps[12] == ("cov", if m.coverEmbedded then "1" else "")
    && ps[13] == ("var", m.variant)
  }

  method WriteDetail(ghost h: string, ghost ps: seq<(string, string)>, m: TrackMeta, b0: string) returns (b: string)
    requires DetailPairs(ps, m) && Written(b0, h, ps, 11)
    ensures Written(b, h, ps, 14)
  {
    b := WriteTok(h, ps, 11, b0, "lrc", Canonical(m.lyricsSync, "none"), "none");
    b := WriteTok(h, ps, 12, b, "cov", if m.coverEmbedded then "1" else "", "");
    b := WriteStr(h, ps, 13, b, "var", m.variant);
  }

  lemma PairsListed(m: TrackMeta)
    ensures IdentityPairs(TagPairs(m), m) && QualityPairs(TagPairs(m), m) && DetailPairs(TagPairs(m), m)
  {
  }

  method WriteTags(m: TrackMeta, head: string) returns (b: string)
    ensures b == head + TagLine(m)
  {
    b := head + (TAG + " v=1");
    ghost var h, ps := b, TagPairs(m);
    PairsListed(m);
    NothingWritten(h, ps);
    b := WriteIdentity(h, ps, m, b);
    b := WriteQuality(h, ps, m, b);
    b := WriteDetail(h, ps, m, b);
    AllWritten(m, head, b);
  }

  lemma NothingWritten(h: string, ps: seq<(string, string)>)
    ensures Written(h, h, ps, 0)
  {
    assert ps[..0] == [] && h + Spaced([]) == h;
  }

  lemma AllWritten(m: TrackMeta, head: string, b: string)
    requires Written(b, head + (TAG + " v=1"), TagPairs(m), |TagPairs(m)|)
    ensures b == head + TagLine(m)
  {
    var ps := TagPairs(m);
    assert ps[..|ps|] == ps;
    TagLineIs(m);
    assert head + (TAG + " v=1") + Spaced(Tokens(ps)) == head + (TAG + " v=1" + Spaced(Tokens(ps)));
  }

  lemma TagLineIs(m: TrackMeta)
    ensures TagLine(m) == TAG + " v=1" + Spaced(Tokens(TagPairs(m)))
  {
    var toks := Tokens(TagPairs(m));
    assert (["v=1"] + toks)[1..] == toks;
    assert Spaced(["v=1"] + toks) == " v=1" + Spaced(toks);
  }

  method WriteHuman(m: TrackMeta, shown: Shown) returns (b: string)
    ensures b == Unlines(HumanLines(m, shown))
  {
    b := "";
    if m.title != "" || m.artist != "" {
      b := [NOTE] + " " + m.title;
      if m.artist != "" {
        b := b + (DASH + m.artist);
      }
      assert b == TitleLine(m.title, m.artist);
      b := b + "\n";
    }
    HumanBlock(m, shown);
    if m.album != "" {
      ghost var first := b;
      var line := [DISC] + " " + m.album;
      if shown.upperFormat != "" {
        var q := HumanQuality(m, shown.kHz);
        line := line + (DOT + shown.upperFormat + if q != "" then " " + q else "");
      }
      assert line == AlbumLine(m.album, AlbumTail(m, shown));
      b := b + (line + "\n");
    }
  }

  method FormatCaption(m: TrackMeta, shown: Shown) returns (s: string)
    ensures s == CaptionText(m, shown)
  {
    s := WriteHuman(m, shown);
    s := WriteTags(m, s + "\n");
  }

  lemma HumanBlock(m: TrackMeta, shown: Shown)
    ensures Unlines(HumanLines(m, shown)) ==
            (if m.title != "" || m.artist != "" then TitleLine(m.title, m.artist) + "\n" else "") +
            (if m.album != "" then AlbumLine(m.album, AlbumTail(m, shown)) + "\n" else "")
  {
    var a, b := TitleLine(m.title, m.artist), AlbumLine(m.album, AlbumTail(m, shown));
    TwoLines(a, b);
    assert [a] + [b] == [a, b] && [] + [b] == [b] && [a] + [] == [a];
  }

  lemma TwoLines(a: string, b: string)
    ensures Unlines([a]) == a + "\n" && Unlines([b]) == b + "\n" && Unlines([a, b]) == a + "\n" + (b + "\n")
  {
    assert [a, b][1..] == [b];
  }

  lemma {:induction false} TokensSnoc(pairs: seq<(string, string)>, p: (string, string))
    ensures Spaced(Tokens(pairs + [p])) == Spaced(Tokens(pairs)) + if p.1 == "" then "" else " " + p.0 + "=" + p.1
  {
    TokensConcat(pairs, [p]);
    assert [p][1..] == [];
    SpacedConcat(Tokens(pairs), Tokens([p]));
    if p.1 != "" {
      assert Tokens([p]) == [p.0 + "=" + p.1] && [p.0 + "=" + p.1][1..] == [];
      assert Spaced([p.0 + "=" + p.1]) == " " + (p.0 + "=" + p.1) + "" == " " + p.0 + "=" + p.1;
    }
  }

  lemma {:induction false} TokensConcat(a: seq<(string, string)>, b: seq<(string, string)>)
    ensures Tokens(a + b) == Tokens(a) + Tokens(b)
  {
    if a == [] {
      assert a + b == b;
    } else {
      assert (a + b)[1..] == a[1..] + b;
      TokensConcat(a[1..], b);
    }
  }

  lemma {:induction false} SpacedConcat(a: seq<string>, b: seq<string>)
    ensures Spaced(a + b) == Spaced(a) + Spaced(b)
  {
    if a == [] {
      assert a + b == b;
    } else {
      assert (a + b)[1..] == a[1..] + b;
      SpacedConcat(a[1..], b);
    }
  }

  method ParseTagLine(line: string) returns (kv: KV)
    ensures kv == WithTokens(map[], Fields(line))
  {
    kv := map[];
    var toks := Fields(line);
    for i := 0 to |toks|
      invariant WithTokens(kv, toks[i..]) == WithTokens(map[], toks)
    {
      var tok := toks[i];
      assert toks[i..][1..] == toks[i + 1..];
      if tok == TAG {
        continue;
      }
      var (k, v, ok) := Cut(tok);
      if !ok {
        continue;
      }
      kv := kv[k := v];
    }
  }

  method ParseHumanBlock(s: string) returns (title: string, artist: string, album: string)
    ensures Human(title, artist, album) == WithLines(Human("", "", ""), SplitLines(s))
  {
    title, artist, album := "", "", "";
    var lines := SplitLines(s);
    for i := 0 to |lines|
      invariant WithLines(Human(title, artist, album), lines[i..]) == WithLines(Human("", "", ""), lines)
    {
      var line := TrimSpace(lines[i]);
      assert lines[i..][1..] == lines[i + 1..];
      if HasPrefix(line, [NOTE]) {
        var rest := TrimSpace(line[1..]);
        var j := Index(rest, DASH);
        if j >= 0 {
          title := TrimSpace(rest[..j]);
          artist := TrimSpace(rest[j + |DASH|..]);
        } else {
          title := rest;
        }
      } else if HasPrefix(line, [DISC]) {
        var rest := TrimSpace(line[1..]);
        var j := LastIndex(rest, DOT);
        if j >= 0 {
          album := TrimSpace(rest[..j]);
        } else {
          album := rest;
        }
      }
    }
  }

  method ParseCaption(s: string) returns (r: Option<TrackMeta>)
    ensures r == Parsed(s)
  {
    var tagLine := FindTagLine(SplitLines(s));
    if tagLine == "" {
      return None;
    }
    var kv := ParseTagLine(tagLine);
    var m := MetaOf(kv, Human("", "", ""));
    var title, artist, album := ParseHumanBlock(s);
    return Some(m.(title := title, artist := artist, album := album));
  }
}
