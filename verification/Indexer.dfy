/**
 The crawler of bot/catalog/indexer.go over the pointer rows and checkpoints of bot/catalog/db.go. The
 world decides by a clock of outside calls what the channel holds, how long a page is, which call fails
 and when the context is cancelled.
 */
module Indexer {
  import opened Options
  import opened Caption
  import opened CrawlHistory

  function Stored(m: TrackMeta): TrackMeta {
    m.(kind := Canonical(m.kind, "track"), variant := if m.variant == "" then VariantKey(m.format) else m.variant,
       lyricsSync := Canonical(m.lyricsSync, "none"))
  }

  function Upserted(rows: Rows, dump: int, id: int, m: TrackMeta, fileUniqueID: string, caption: string): Rows {
    if Stored(m).variant == "" then rows else rows[(dump, id) := Row(Stored(m), fileUniqueID, caption)]
  }

  function Sized(m: TrackMeta, size: int): TrackMeta {
    if m.sizeBytes == 0 then m.(sizeBytes := size) else m
  }

  type Parser = string -> Option<TrackMeta>

  predicate Tagged(parse: Parser, msg: Msg) {
    parse(msg.caption).Some?
  }

  /** The row of a tagged, cacheable message. */
  function RowOf(parse: Parser, msg: Msg): Option<Row> {
    match parse(msg.caption)
    case None => None
    case Some(m) =>
      var stored := Stored(Sized(m, msg.sizeBytes));
      if stored.variant == "" then None else Some(Row(stored, msg.fileUniqueID, msg.caption))
  }

  function Captions(dump: int, parse: Parser): Reader {
    Reader(dump, msg => RowOf(parse, msg), msg => Tagged(parse, msg))
  }

  class Catalog {
    var rows: Rows
    var checkpoints: map<int, int>   // of the registered dumps
    const parse: Parser

    constructor ()
      ensures rows == map[] && checkpoints == map[] && parse == Parsed
    {
      rows, checkpoints, parse := map[], map[], Parsed;
    }

    function DumpCheckpoint(dump: int): int
      reads this`checkpoints
    {
      if dump in checkpoints then checkpoints[dump] else 0
    }

    /** A non-cacheable tier stores no row. */
    method UpsertTrack(dump: int, id: int, m: TrackMeta, fileUniqueID: string, caption: string)
      modifies this`rows
      ensures rows == Upserted(old(rows), dump, id, m, fileUniqueID, caption)
    {
      var kind, variant, lyrics := m.kind, m.variant, m.lyricsSync;
      if kind == "" {
        kind := "track";
      }
      if variant == "" {
        variant := VariantKey(m.format);
      }
      if variant == "" {
        return;
      }
      if lyrics == "" {
        lyrics := "none";
      }
      rows := rows[(dump, id) := Row(m.(kind := kind, variant := variant, lyricsSync := lyrics), fileUniqueID, caption)];
    }

    method SetDumpCheckpoint(dump: int, id: int)
      modifies this`checkpoints
      ensures checkpoints == if dump in old(checkpoints) then old(checkpoints)[dump := id] else old(checkpoints)
    {
      if dump in checkpoints {
        checkpoints := checkpoints[dump := id];
      }
    }

    method IndexMessage(w: World, t0: nat, ghost rd: Reader, dump: int, msg: Msg) returns (ok: bool, n: nat, t: nat)
      requires rd == Captions(dump, parse)
      modifies this`rows
      ensures t >= t0
      ensures rows == if ok then Indexed(old(rows), rd, msg) else old(rows)
      ensures n == if ok && rd.tagged(msg) then 1 else 0
    {
      t, n := t0, 0;
      var parsed := parse(msg.caption);
      if parsed.Some? {
        var meta := parsed.value;
        if meta.sizeBytes == 0 {
          meta := meta.(sizeBytes := msg.sizeBytes);
        }
        t := t + 1;
        if w.fails(t) {
          return false, 0, t;
        }
        UpsertTrack(dump, msg.id, meta, msg.fileUniqueID, msg.caption);
        n := 1;
      }
      ok := true;
    }

    /** One page of the crawl, which has come down to position first of ch. */
    method IndexPage(w: World, ghost rd: Reader, dump: int, checkpoint: int, msgs: seq<Msg>, ghost ch: Channel, ghost first: nat,
                     ghost rows0: Rows, t0: nat, indexed0: nat, newest0: int)
      returns (indexed: nat, newest: int, offsetID: int, reachedCheckpoint: bool, ok: bool, t: nat, ghost e: nat)
      requires rd == Captions(dump, parse)
      requires Position(ch, checkpoint, first, newest0) && Progress(rows0, rows, indexed0, rd, ch, first)
      requires 0 < |msgs| <= first && msgs == Down(ch, first, |msgs|)
      modifies this`rows
      ensures t >= t0 && e <= first && Progress(rows0, rows, indexed, rd, ch, e) && Position(ch, checkpoint, e, newest)
      ensures ok && reachedCheckpoint ==> e == Below(ch, checkpoint + 1)
      ensures ok && !reachedCheckpoint ==> e < first && offsetID == ch[e].id
    {
      t, indexed, newest, offsetID, e := t0, indexed0, newest0, 0, first;
      reachedCheckpoint, ok := false, true;
      var i := 0;
      while i < |msgs|
        invariant 0 <= i <= |msgs| && e == first - i && t >= t0 && ok && !reachedCheckpoint
        invariant Progress(rows0, rows, indexed, rd, ch, e) && Position(ch, checkpoint, e, newest)
        invariant i > 0 ==> offsetID == ch[e].id
      {
        var msg := msgs[i];
        DownAt(ch, first, |msgs|, i);
        offsetID := msg.id;
        if msg.id <= checkpoint {
          AtCheckpoint(ch, checkpoint, e, newest);
          reachedCheckpoint := true;
          break;
        }
        var n;
        ghost var before := rows;
        ok, n, t := IndexMessage(w, t, rd, dump, msg);
        if !ok {
          break;
        }
        ProgressDown(rows0, before, indexed, rd, ch, e);
        PositionDown(ch, checkpoint, e, newest);
        indexed := indexed + n;
        if msg.id > newest {
          newest := msg.id;
        }
        e, i := e - 1, i + 1;
      }
    }

    /** The pages of a crawl, until it is broken off, meets its checkpoint or runs out of messages. */
    method CrawlDown(w: World, start: nat, ghost rd: Reader, dump: int, checkpoint: int)
      returns (indexed: nat, newest: int, ok: bool, t: nat, ghost u: nat, ghost e: nat)
      requires Growing(w) && checkpoint >= 0 && rd == Captions(dump, parse)
      modifies this`rows
      ensures start <= u <= t && Progress(old(rows), rows, indexed, rd, w.channel(u), e)
      ensures Position(w.channel(u), checkpoint, e, newest)
      ensures ok ==> e == Below(w.channel(u), checkpoint + 1)
    {
      t, indexed, newest, u := start, 0, checkpoint, start;
      ghost var ch := w.channel(u);
      e := |ch|;
      var offsetID := 0;
      while true
        invariant start <= u <= t && ch == w.channel(u)
        invariant Progress(old(rows), rows, indexed, rd, ch, e) && Position(ch, checkpoint, e, newest)
        invariant if offsetID == 0 then e == |ch| else e < |ch| && offsetID == ch[e].id
        decreases if offsetID == 0 then 1 else 0, offsetID
      {
        t := t + 1;
        if w.cancelled(t) || w.fails(t) {
          return indexed, newest, false, t, u, e;
        }
        var msgs := Page(w.channel(t), offsetID, w.size(t));
        if offsetID == 0 {
          u, ch, e := t, w.channel(t), |w.channel(t)|;
        } else {
          GrowsFrom(w, u, t);
          PageBelow(ch, w.channel(t), e, w.size(t));
        }
        if msgs == [] {
          AtCheckpoint(ch, checkpoint, 0, newest);
          return indexed, newest, true, t, u, e;
        }
        var reachedCheckpoint;
        ghost var before := e;
        indexed, newest, offsetID, reachedCheckpoint, ok, t, e :=
          IndexPage(w, rd, dump, checkpoint, msgs, ch, e, old(rows), t, indexed, newest);
        if !ok || reachedCheckpoint {
          return indexed, newest, ok, t, u, e;
        }
        assert before < |ch| ==> ch[e].id < ch[before].id;
        if w.cancelled(t) {
          return indexed, newest, false, t, u, e;
        }
      }
    }

    /**
     The crawl. It saw the channel as it was at outside call u and indexed it from the newest message
     down to position e; when it completed, that is every message above the checkpoint.
     */
    method IndexDump(w: World, start: nat, dump: int) returns (indexed: nat, ok: bool, t: nat, ghost u: nat, ghost e: nat)
      requires Growing(w) && DumpCheckpoint(dump) >= 0
      modifies this
      ensures start <= u <= t && Progress(old(rows), rows, indexed, Captions(dump, parse), w.channel(u), e)
      ensures e >= Below(w.channel(u), old(DumpCheckpoint(dump)) + 1)
      ensures ok ==> e == Below(w.channel(u), old(DumpCheckpoint(dump)) + 1)
      ensures checkpoints == Advanced(old(checkpoints), ok, dump, w.channel(u))
    {
      if w.fails(start) {
        return 0, false, start, start, |w.channel(start)|;
      }
      var checkpoint := DumpCheckpoint(dump);
      var newest;
      indexed, newest, ok, t, u, e := CrawlDown(w, start, Captions(dump, parse), dump, checkpoint);
      if ok && newest > checkpoint {
        if w.fails(t) {
          return indexed, false, t, u, e;
        }
        SetDumpCheckpoint(dump, newest);
      }
      if ok {
        BelowMeans(w.channel(u), checkpoint + 1);
      }
    }
  }
}
