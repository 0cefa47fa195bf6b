/**
 The history of a dump channel under the incremental crawl of bot/catalog/indexer.go: which rows and
 which checkpoint any sequence of new messages and of completed or interrupted crawls leaves. A channel
 is its messages in ascending id order and only grows. How a message is read is a parameter here; module
 Indexer supplies the caption parser.
 */
module CrawlHistory {
  import opened Options
  import opened Caption

  datatype Msg = Msg(id: int, caption: string, fileUniqueID: string, sizeBytes: int)

  datatype Row = Row(meta: TrackMeta, fileUniqueID: string, captionRaw: string)

  type Key = (int, int)   // dump, message
  type Rows = map<Key, Row>
  type Channel = seq<Msg>

  const PAGE := 100

  predicate Ordered(ch: Channel) {
    (forall i :: 0 <= i < |ch| ==> ch[i].id >= 1) && forall i, j :: 0 <= i < j < |ch| ==> ch[i].id < ch[j].id
  }

  function LastId(ch: Channel): int {
    if ch == [] then 0 else ch[|ch| - 1].id
  }

  function Get(rows: Rows, key: Key): Option<Row> {
    if key in rows then Some(rows[key]) else None
  }

  /** How the crawler of one dump reads a message: the row it stores, if any, and whether it counts it as indexed. */
  datatype Reader = Reader(dump: int, row: Msg -> Option<Row>, tagged: Msg -> bool)

  function Indexed(rows: Rows, rd: Reader, msg: Msg): Rows {
    match rd.row(msg)
    case None => rows
    case Some(row) => rows[(rd.dump, msg.id) := row]
  }

  /** The rows after walking down from the newest message to position e. */
  function WalkedTo(rows: Rows, rd: Reader, ch: Channel, e: nat): Rows
    requires e <= |ch|
    decreases |ch| - e
  {
    if e == |ch| then rows else Indexed(WalkedTo(rows, rd, ch, e + 1), rd, ch[e])
  }

  function TaggedFrom(rd: Reader, ch: Channel, e: nat): nat
    requires e <= |ch|
    decreases |ch| - e
  {
    if e == |ch| then 0 else TaggedFrom(rd, ch, e + 1) + if rd.tagged(ch[e]) then 1 else 0
  }

  /** The row a full crawl gives a message id, if any. */
  function FullRow(rd: Reader, ch: Channel, id: int): Option<Row> {
    if ch == [] then None
    else if ch[|ch| - 1].id == id then rd.row(ch[|ch| - 1])
    else FullRow(rd, ch[..|ch| - 1], id)
  }

  // ---- pages --------------------------------------------------------------

  /** How many messages are older than offset. */
  function Below(ch: Channel, offset: int): (n: nat)
    ensures n <= |ch|
  {
    if ch == [] then 0
    else if ch[|ch| - 1].id < offset then |ch|
    else Below(ch[..|ch| - 1], offset)
  }

  lemma {:induction false} BelowIs(ch: Channel, offset: int, e: nat)
    requires Ordered(ch) && e <= |ch|
    requires e == 0 || ch[e - 1].id < offset
    requires e == |ch| || ch[e].id >= offset
    ensures Below(ch, offset) == e
  {
    if e < |ch| {
      BelowIs(ch[..|ch| - 1], offset, e);
    }
  }

  /** The newest messages older than offset (0 for the newest of all), newest first: at least one if there is one, at most PAGE. */
  function Page(ch: Channel, offset: int, size: nat): seq<Msg> {
    var e := if offset == 0 then |ch| else Below(ch, offset);
    var n := if size == 0 then 1 else if size > PAGE then PAGE else size;
    Down(ch, e, if n < e then n else e)
  }

  /** The n messages before position e, newest first. */
  function Down(ch: Channel, e: nat, n: nat): (d: seq<Msg>)
    requires n <= e <= |ch|
    ensures |d| == n
  {
    seq(n, i requires 0 <= i < n => ch[e - 1 - i])
  }

  lemma DownOfPrefix(ch: Channel, later: Channel, e: nat, n: nat)
    requires ch <= later && n <= e <= |ch|
    ensures Down(later, e, n) == Down(ch, e, n)
  {
  }

  lemma DownAt(ch: Channel, e: nat, n: nat, i: nat)
    requires i < n <= e <= |ch|
    ensures Down(ch, e, n)[i] == ch[e - 1 - i]
  {
  }

  datatype World = World(channel: nat -> Channel, size: nat -> nat, fails: nat -> bool, cancelled: nat -> bool)

  ghost predicate Growing(w: World) {
    (forall t: nat :: Ordered(w.channel(t))) && forall t: nat :: w.channel(t) <= w.channel(t + 1)
  }

  lemma {:induction false} GrowsFrom(w: World, t: nat, u: nat)
    requires Growing(w) && t <= u
    ensures w.channel(t) <= w.channel(u)
    decreases u
  {
    if t < u {
      GrowsFrom(w, t, u - 1);
      assert w.channel(u - 1) <= w.channel(u - 1 + 1);
    }
  }

  /** A page further down is the one the crawl's first look at the channel would have given. */
  lemma PageBelow(ch: Channel, later: Channel, e: nat, size: nat)
    requires Ordered(ch) && Ordered(later) && ch <= later && e < |ch|
    ensures var p := Page(later, ch[e].id, size);
            |p| <= e && (p == [] <==> e == 0) && p == Down(ch, e, |p|)
  {
    BelowIs(later, ch[e].id, e);
    DownOfPrefix(ch, later, e, |Page(later, ch[e].id, size)|);
  }

  /** A completed crawl of a registered dump moves its checkpoint up to the newest message it saw. */
  function Advanced(checkpoints: map<int, int>, ok: bool, dump: int, ch: Channel): map<int, int> {
    if ok && dump in checkpoints && LastId(ch) > checkpoints[dump] then checkpoints[dump := LastId(ch)] else checkpoints
  }

  ghost predicate Progress(rows0: Rows, rows: Rows, indexed: nat, rd: Reader, ch: Channel, e: nat) {
    e <= |ch| && rows == WalkedTo(rows0, rd, ch, e) && indexed == TaggedFrom(rd, ch, e)
  }

  /** A crawl at position e has seen only messages above its checkpoint; newest is the first of them. */
  ghost predicate Position(ch: Channel, checkpoint: int, e: nat, newest: int) {
    && Ordered(ch) && checkpoint >= 0 && e <= |ch|
    && Below(ch, checkpoint + 1) <= e
    && (e < |ch| ==> ch[e].id > checkpoint)
    && newest == if e == |ch| then checkpoint else LastId(ch)
  }

  lemma AtCheckpoint(ch: Channel, checkpoint: int, e: nat, newest: int)
    requires Position(ch, checkpoint, e, newest) && (e > 0 ==> ch[e - 1].id <= checkpoint)
    ensures e == Below(ch, checkpoint + 1) && (newest > checkpoint <==> LastId(ch) > checkpoint)
    ensures newest > checkpoint ==> newest == LastId(ch)
  {
    BelowIs(ch, checkpoint + 1, e);
  }

  lemma PositionDown(ch: Channel, checkpoint: int, e: nat, newest: int)
    requires Position(ch, checkpoint, e, newest) && e > 0 && ch[e - 1].id > checkpoint
    ensures Position(ch, checkpoint, e - 1, if ch[e - 1].id > newest then ch[e - 1].id else newest)
  {
    BelowAtMost(ch, checkpoint + 1, e - 1);
    assert e < |ch| ==> LastId(ch) > ch[e - 1].id;
  }

  lemma ProgressDown(rows0: Rows, rows: Rows, indexed: nat, rd: Reader, ch: Channel, e: nat)
    requires Progress(rows0, rows, indexed, rd, ch, e) && e > 0
    ensures Progress(rows0, Indexed(rows, rd, ch[e - 1]), indexed + if rd.tagged(ch[e - 1]) then 1 else 0, rd, ch, e - 1)
  {
  }

  lemma {:induction false} BelowAtMost(ch: Channel, offset: int, e: nat)
    requires Ordered(ch) && e < |ch| && ch[e].id >= offset
    ensures Below(ch, offset) <= e
  {
    if e < |ch| - 1 {
      BelowAtMost(ch[..|ch| - 1], offset, e);
    }
  }

  // ---- what a full crawl gives --------------------------------------------

  lemma {:induction false} FullRowAt(rd: Reader, ch: Channel, i: nat)
    requires Ordered(ch) && i < |ch|
    ensures FullRow(rd, ch, ch[i].id) == rd.row(ch[i])
  {
    if i < |ch| - 1 {
      FullRowAt(rd, ch[..|ch| - 1], i);
    }
  }

  lemma {:induction false} FullRowIsSome(rd: Reader, ch: Channel, id: int)
    ensures FullRow(rd, ch, id).Some? ==> exists i :: 0 <= i < |ch| && ch[i].id == id
  {
    if ch != [] && ch[|ch| - 1].id != id {
      FullRowIsSome(rd, ch[..|ch| - 1], id);
      assert forall i :: 0 <= i < |ch| - 1 ==> ch[..|ch| - 1][i] == ch[i];
    }
  }

  /** New messages never change what an old id means. */
  lemma {:induction false} FullRowGrows(rd: Reader, ch: Channel, more: seq<Msg>, id: int)
    requires Ordered(ch + more)
    ensures id <= LastId(ch) || FullRow(rd, ch, id).Some? ==> FullRow(rd, ch + more, id) == FullRow(rd, ch, id)
    decreases |more|
  {
    if more == [] {
      assert ch + more == ch;
    } else {
      var less := more[..|more| - 1];
      assert (ch + more)[..|ch + more| - 1] == ch + less;
      assert (ch + more)[|ch + more| - 1] == more[|more| - 1];
      assert ch != [] ==> (ch + more)[|ch| - 1] == ch[|ch| - 1];
      FullRowIsSome(rd, ch, id);
      assert forall i :: 0 <= i < |ch| ==> ch[i] == (ch + more)[i];
      FullRowGrows(rd, ch, less, id);
      if ch == [] && id <= 0 {
        FullRowIsSome(rd, ch + more, id);
        FullRowIsSome(rd, ch + less, id);
      }
    }
  }

  /** What a key reads after the walk down to e. */
  function WalkedRow(rows: Rows, rd: Reader, ch: Channel, e: nat, key: Key): Option<Row> {
    if key.0 == rd.dump && Reached(ch, e, key.1) && FullRow(rd, ch, key.1).Some? then FullRow(rd, ch, key.1) else Get(rows, key)
  }

  /** Walking down to e puts there exactly the full rows of the messages from e on. */
  lemma {:induction false} WalkedGet(rows: Rows, rd: Reader, ch: Channel, e: nat, key: Key)
    requires Ordered(ch) && e <= |ch|
    ensures Get(WalkedTo(rows, rd, ch, e), key) == WalkedRow(rows, rd, ch, e, key)
    decreases |ch| - e
  {
    if e < |ch| {
      WalkedGet(rows, rd, ch, e + 1, key);
      WalkedLast(rows, rd, ch, e, key);
      WalkedStep(rows, rd, ch, e, key);
    }
  }

  lemma WalkedLast(rows: Rows, rd: Reader, ch: Channel, e: nat, key: Key)
    requires e < |ch|
    ensures Get(WalkedTo(rows, rd, ch, e), key) ==
            if key == (rd.dump, ch[e].id) && rd.row(ch[e]).Some? then rd.row(ch[e]) else Get(WalkedTo(rows, rd, ch, e + 1), key)
  {
    IndexedGet(WalkedTo(rows, rd, ch, e + 1), rd, ch[e], key);
  }

  lemma WalkedStep(rows: Rows, rd: Reader, ch: Channel, e: nat, key: Key)
    requires Ordered(ch) && e < |ch|
    ensures WalkedRow(rows, rd, ch, e, key) ==
            if key == (rd.dump, ch[e].id) && rd.row(ch[e]).Some? then rd.row(ch[e]) else WalkedRow(rows, rd, ch, e + 1, key)
  {
    FullRowAt(rd, ch, e);
    if FullRow(rd, ch, key.1).Some? {
      ReachedStep(rd, ch, e, key.1);
    }
  }

  predicate Reached(ch: Channel, e: nat, id: int) {
    e < |ch| && id >= ch[e].id
  }

  lemma IndexedGet(rows: Rows, rd: Reader, msg: Msg, key: Key)
    ensures Get(Indexed(rows, rd, msg), key) == if key == (rd.dump, msg.id) && rd.row(msg).Some? then rd.row(msg) else Get(rows, key)
  {
  }

  lemma ReachedStep(rd: Reader, ch: Channel, e: nat, id: int)
    requires Ordered(ch) && e < |ch| && FullRow(rd, ch, id).Some?
    ensures Reached(ch, e, id) <==> id == ch[e].id || Reached(ch, e + 1, id)
  {
    FullRowIsSome(rd, ch, id);
  }

  // ---- every history of one dump ------------------------------------------

  /** The channel with the dump's rows and checkpoint. */
  datatype State = State(channel: Channel, rows: Rows, checkpoint: int)

  /** A crawl reads the channel down to position e and is either completed or broken off there. */
  datatype Event = Grow(more: seq<Msg>) | Crawl(e: nat, completed: bool)

  predicate Legal(s: State, ev: Event) {
    match ev
    case Grow(more) => Ordered(s.channel + more)
    case Crawl(e, completed) =>
      var low := Below(s.channel, s.checkpoint + 1);
      low <= e <= |s.channel| && (completed ==> e == low)
  }

  function Apply(s: State, rd: Reader, ev: Event): State
    requires Legal(s, ev)
  {
    match ev
    case Grow(more) => s.(channel := s.channel + more)
    case Crawl(e, completed) =>
      s.(rows := WalkedTo(s.rows, rd, s.channel, e),
         checkpoint := if completed && LastId(s.channel) > s.checkpoint then LastId(s.channel) else s.checkpoint)
  }

  predicate Run(s: State, rd: Reader, events: seq<Event>)
    decreases |events|
  {
    events == [] || (Legal(s, events[0]) && Run(Apply(s, rd, events[0]), rd, events[1..]))
  }

  function Exec(s: State, rd: Reader, events: seq<Event>): State
    requires Run(s, rd, events)
    decreases |events|
  {
    if events == [] then s else Exec(Apply(s, rd, events[0]), rd, events[1..])
  }

  /** What IndexDump promises of a registered dump is one crawl event of its history. */
  lemma IndexDumpIsOneCrawl(rows0: Rows, rows: Rows, indexed: nat, checkpoints: map<int, int>, ok: bool, rd: Reader, ch: Channel, e: nat)
    requires rd.dump in checkpoints && Progress(rows0, rows, indexed, rd, ch, e)
    requires Below(ch, checkpoints[rd.dump] + 1) <= e && (ok ==> e == Below(ch, checkpoints[rd.dump] + 1))
    ensures Legal(State(ch, rows0, checkpoints[rd.dump]), Crawl(e, ok))
    ensures Apply(State(ch, rows0, checkpoints[rd.dump]), rd, Crawl(e, ok)) == State(ch, rows, Advanced(checkpoints, ok, rd.dump, ch)[rd.dump])
  {
  }

  /** Up to the checkpoint the dump's rows are those of a full crawl; above it there are only rows a full crawl gives too. */
  ghost predicate Agrees(s: State, rd: Reader) {
    && Ordered(s.channel) && 0 <= s.checkpoint <= LastId(s.channel)
    && (forall id :: id <= s.checkpoint ==> Get(s.rows, (rd.dump, id)) == FullRow(rd, s.channel, id))
    && (forall id :: (rd.dump, id) in s.rows ==> Get(s.rows, (rd.dump, id)) == FullRow(rd, s.channel, id))
  }

  lemma GrowKeepsAgrees(s: State, rd: Reader, more: seq<Msg>)
    requires Agrees(s, rd) && Ordered(s.channel + more)
    ensures Agrees(s.(channel := s.channel + more), rd)
  {
    forall id | id <= s.checkpoint || (rd.dump, id) in s.rows
      ensures FullRow(rd, s.channel + more, id) == FullRow(rd, s.channel, id)
    {
      FullRowGrows(rd, s.channel, more, id);
    }
    if more != [] && s.channel != [] {
      assert (s.channel + more)[|s.channel| - 1] == s.channel[|s.channel| - 1];
    }
  }

  lemma ReachedAbove(rd: Reader, ch: Channel, checkpoint: int, id: int)
    requires Ordered(ch) && FullRow(rd, ch, id).Some? && id > checkpoint
    ensures Reached(ch, Below(ch, checkpoint + 1), id)
  {
    FullRowIsSome(rd, ch, id);
    BelowMeans(ch, checkpoint + 1);
  }

  lemma CrawlReads(s: State, rd: Reader, e: nat, completed: bool, id: int)
    requires Agrees(s, rd) && Legal(s, Crawl(e, completed))
    ensures var read := Get(WalkedTo(s.rows, rd, s.channel, e), (rd.dump, id));
            read == FullRow(rd, s.channel, id) || (!completed && id > s.checkpoint && read == None)
  {
    WalkedGet(s.rows, rd, s.channel, e, (rd.dump, id));
    if completed && id > s.checkpoint && FullRow(rd, s.channel, id).Some? {
      ReachedAbove(rd, s.channel, s.checkpoint, id);
    }
    assert id <= s.checkpoint || (rd.dump, id) in s.rows ==> Get(s.rows, (rd.dump, id)) == FullRow(rd, s.channel, id);
  }

  lemma CrawlKeepsAgrees(s: State, rd: Reader, e: nat, completed: bool)
    requires Agrees(s, rd) && Legal(s, Crawl(e, completed))
    ensures Agrees(Apply(s, rd, Crawl(e, completed)), rd)
  {
    var s' := Apply(s, rd, Crawl(e, completed));
    forall id ensures Get(s'.rows, (rd.dump, id)) == FullRow(rd, s'.channel, id) || (id > s'.checkpoint && Get(s'.rows, (rd.dump, id)) == None) {
      CrawlReads(s, rd, e, completed, id);
    }
  }

  lemma {:induction false} BelowMeans(ch: Channel, offset: int)
    requires Ordered(ch)
    ensures forall i :: 0 <= i < |ch| ==> (ch[i].id < offset <==> i < Below(ch, offset))
  {
    if ch != [] && ch[|ch| - 1].id >= offset {
      BelowMeans(ch[..|ch| - 1], offset);
      assert forall i :: 0 <= i < |ch| - 1 ==> ch[..|ch| - 1][i] == ch[i];
    }
  }

  lemma {:induction false} HistoryAgrees(s: State, rd: Reader, events: seq<Event>)
    requires Agrees(s, rd) && Run(s, rd, events)
    ensures Agrees(Exec(s, rd, events), rd) && Exec(s, rd, events).checkpoint >= s.checkpoint
    decreases |events|
  {
    if events != [] {
      match events[0] {
        case Grow(more) => GrowKeepsAgrees(s, rd, more);
        case Crawl(e, completed) => CrawlKeepsAgrees(s, rd, e, completed);
      }
      HistoryAgrees(Apply(s, rd, events[0]), rd, events[1..]);
    }
  }

  /** From an empty catalog, over any channel history and any completed or interrupted crawls. */
  lemma EveryCheckpointedMessageHasItsRow(rd: Reader, events: seq<Event>, i: nat)
    requires Run(State([], map[], 0), rd, events)
    requires var s := Exec(State([], map[], 0), rd, events); i < |s.channel| && s.channel[i].id <= s.checkpoint
    ensures var s := Exec(State([], map[], 0), rd, events); Get(s.rows, (rd.dump, s.channel[i].id)) == rd.row(s.channel[i])
  {
    HistoryAgrees(State([], map[], 0), rd, events);
    var s := Exec(State([], map[], 0), rd, events);
    FullRowAt(rd, s.channel, i);
  }

  function Completed(s: State, rd: Reader): State {
    Apply(s, rd, Crawl(Below(s.channel, s.checkpoint + 1), true))
  }

  lemma FullWalk(ch: Channel, rd: Reader, id: int)
    requires Ordered(ch)
    ensures Get(WalkedTo(map[], rd, ch, 0), (rd.dump, id)) == FullRow(rd, ch, id)
  {
    WalkedGet(map[], rd, ch, 0, (rd.dump, id));
    FullRowIsSome(rd, ch, id);
  }

  lemma CaughtUp(s: State, rd: Reader, id: int)
    requires Agrees(s, rd) && s.checkpoint == LastId(s.channel)
    ensures Get(s.rows, (rd.dump, id)) == FullRow(rd, s.channel, id)
  {
    FullRowIsSome(rd, s.channel, id);
    if id > s.checkpoint {
      assert (rd.dump, id) in s.rows ==> Get(s.rows, (rd.dump, id)) == FullRow(rd, s.channel, id);
    }
  }

  lemma CompletedIsFull(s: State, rd: Reader, id: int)
    requires Agrees(s, rd)
    ensures Get(Completed(s, rd).rows, (rd.dump, id)) == Get(WalkedTo(map[], rd, s.channel, 0), (rd.dump, id))
  {
    CrawlKeepsAgrees(s, rd, Below(s.channel, s.checkpoint + 1), true);
    CaughtUp(Completed(s, rd), rd, id);
    FullWalk(s.channel, rd, id);
  }

  /** After any history one more completed crawl leaves the rows that one full crawl of the channel would leave. */
  lemma IncrementalEqualsFull(rd: Reader, events: seq<Event>, id: int)
    requires Run(State([], map[], 0), rd, events)
    ensures var s := Exec(State([], map[], 0), rd, events);
            Get(Completed(s, rd).rows, (rd.dump, id)) == Get(WalkedTo(map[], rd, s.channel, 0), (rd.dump, id))
  {
    HistoryAgrees(State([], map[], 0), rd, events);
    CompletedIsFull(Exec(State([], map[], 0), rd, events), rd, id);
  }
}
