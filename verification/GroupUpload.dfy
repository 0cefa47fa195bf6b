/**
 The resumable audio-group upload of bot/mtproto.go: files are uploaded and registered one by one, then
 the album is sent; a transient connection error repeats the attempt with the registrations kept. The log
 lists what succeeded at the client and every send. A send may reach the server although its reply is
 lost; the server drops a message whose random id it has seen.
 */
module GroupUpload {
  import opened Options
  import opened UploadGate

  /** A registered document reference with its random id and caption. */
  datatype Single = Single(media: int, randomID: int, message: string)

  datatype Item = Item(file: string, caption: string)

  datatype Reply = Fine | Transient | Permanent

  datatype Event =
    | Registered(i: nat, single: Single)
    | Sent(album: seq<Single>, arrived: bool, reply: Reply)

  /** Replies, fresh values and cancellation, by a clock that ticks at every outside call. */
  datatype World = World(reply: nat -> Reply, arrives: nat -> bool, media: nat -> int, random: nat -> int,
                         ready: nat -> bool, cancelled: nat -> bool)

  datatype Outcome = Posted | Failed(transient: bool) | NotStarted

  const MAX_ATTEMPTS := 10

  // ---- logs ---------------------------------------------------------------

  /** The registrations, in order. */
  function Singles(log: seq<Event>): seq<Single> {
    if log == [] then []
    else Singles(log[..|log| - 1]) +
         match log[|log| - 1]
         case Registered(_, single) => [single]
         case Sent(_, _, _) => []
  }

  /** An item is registered once, after all earlier ones; an album is sent when it is complete, in the items' order. */
  predicate Fits(items: seq<Item>, before: seq<Event>, ev: Event) {
    match ev
    case Registered(i, single) => i == |Singles(before)| < |items| && single.message == items[i].caption
    case Sent(album, arrived, reply) => album == Singles(before) && |album| == |items| && (reply == Fine ==> arrived)
  }

  predicate Proper(items: seq<Item>, log: seq<Event>) {
    forall j :: 0 <= j < |log| ==> Fits(items, log[..j], log[j])
  }

  lemma Snoc(items: seq<Item>, log: seq<Event>, ev: Event)
    requires Proper(items, log) && Fits(items, log, ev)
    ensures Proper(items, log + [ev])
    ensures Singles(log + [ev]) == Singles(log) + if ev.Registered? then [ev.single] else []
  {
    var all := log + [ev];
    assert all[..|log|] == log;
    forall j | 0 <= j < |all| ensures Fits(items, all[..j], all[j]) {
      if j < |log| {
        assert all[..j] == log[..j] && all[j] == log[j];
      }
    }
  }

  lemma {:induction false} SinglesGrow(log: seq<Event>, j: nat)
    requires j <= |log|
    ensures Singles(log[..j]) <= Singles(log)
    decreases |log|
  {
    if j < |log| {
      SinglesGrow(log[..|log| - 1], j);
      assert log[..|log| - 1][..j] == log[..j];
    } else {
      assert log[..j] == log;
    }
  }

  lemma {:induction false} NoMoreThanItems(items: seq<Item>, log: seq<Event>)
    requires Proper(items, log)
    ensures |Singles(log)| <= |items|
  {
    if log != [] {
      ProperBefore(items, log);
      NoMoreThanItems(items, log[..|log| - 1]);
    }
  }

  lemma ProperBefore(items: seq<Item>, log: seq<Event>)
    requires Proper(items, log) && log != []
    ensures Proper(items, log[..|log| - 1]) && Fits(items, log[..|log| - 1], log[|log| - 1])
  {
    var before := log[..|log| - 1];
    assert forall j :: 0 <= j < |before| ==> before[..j] == log[..j];
  }

  /** However often it is retried, every send carries the same album, the registrations in item order. */
  lemma EverySendIsTheSame(items: seq<Item>, log: seq<Event>, j: nat)
    requires Proper(items, log) && j < |log| && log[j].Sent?
    ensures log[j].album == Singles(log) && |log[j].album| == |items|
  {
    assert Fits(items, log[..j], log[j]);
    SinglesGrow(log, j);
    NoMoreThanItems(items, log);
  }

  /** An item is registered at most once, and keeps that registration's random id. */
  lemma RegisteredOnce(items: seq<Item>, log: seq<Event>, j: nat, k: nat)
    requires Proper(items, log) && j < |log| && k < |log| && log[j].Registered? && log[k].Registered? && log[j].i == log[k].i
    ensures j == k && log[j].i < |Singles(log)| && Singles(log)[log[j].i] == log[j].single
  {
    RegisteredAt(items, log, j);
    RegisteredAt(items, log, k);
    if j < k {
      CountGrows(log, j + 1, k);
    } else if k < j {
      CountGrows(log, k + 1, j);
    }
  }

  lemma CountGrows(log: seq<Event>, a: nat, b: nat)
    requires a <= b <= |log|
    ensures |Singles(log[..a])| <= |Singles(log[..b])|
  {
    SinglesGrow(log[..b], a);
    assert log[..b][..a] == log[..a];
  }

  lemma RegisteredAt(items: seq<Item>, log: seq<Event>, j: nat)
    requires Proper(items, log) && j < |log| && log[j].Registered?
    ensures log[j].i == |Singles(log[..j])| && |Singles(log[..j + 1])| == log[j].i + 1
    ensures log[j].i < |Singles(log)| && Singles(log)[log[j].i] == log[j].single
  {
    assert Fits(items, log[..j], log[j]);
    assert log[..j + 1][..j] == log[..j] && log[..j + 1][j] == log[j];
    SinglesGrow(log, j + 1);
    assert Singles(log[..j + 1])[log[j].i] == log[j].single;
  }

  // ---- the server ---------------------------------------------------------

  predicate Seen(posted: seq<Single>, s: Single) {
    exists i :: 0 <= i < |posted| && posted[i].randomID == s.randomID
  }

  /** The messages of an album the server has not seen, appended to what it posted. */
  function Accepted(posted: seq<Single>, album: seq<Single>): seq<Single>
    decreases |album|
  {
    if album == [] then posted
    else Accepted(if Seen(posted, album[0]) then posted else posted + [album[0]], album[1..])
  }

  function PostedBy(log: seq<Event>): seq<Single> {
    if log == [] then []
    else
      var before := PostedBy(log[..|log| - 1]);
      match log[|log| - 1]
      case Registered(_, _) => before
      case Sent(album, arrived, _) => if arrived then Accepted(before, album) else before
  }

  predicate DistinctIds(album: seq<Single>) {
    forall i, j :: 0 <= i < j < |album| ==> album[i].randomID != album[j].randomID
  }

  lemma {:induction false} FreshAlbumIsPosted(posted: seq<Single>, album: seq<Single>)
    requires DistinctIds(posted + album)
    ensures Accepted(posted, album) == posted + album
    decreases |album|
  {
    if album != [] {
      forall i | 0 <= i < |posted| ensures posted[i].randomID != album[0].randomID {
        assert (posted + album)[i] == posted[i] && (posted + album)[|posted|] == album[0];
      }
      assert posted + album == (posted + [album[0]]) + album[1..];
      FreshAlbumIsPosted(posted + [album[0]], album[1..]);
    }
  }

  lemma {:induction false} SeenAlbumIsDropped(posted: seq<Single>, album: seq<Single>)
    requires forall s :: s in album ==> s in posted
    ensures Accepted(posted, album) == posted
  {
    if album != [] {
      assert album[0] in posted;
      assert Seen(posted, album[0]);
      SeenAlbumIsDropped(posted, album[1..]);
    }
  }

  predicate SomeArrived(log: seq<Event>) {
    exists j :: 0 <= j < |log| && log[j].Sent? && log[j].arrived
  }

  /** The album is posted at most once: whole and in order as soon as one send has arrived, and never again. */
  lemma {:induction false} PostedOnce(items: seq<Item>, log: seq<Event>)
    requires Proper(items, log) && DistinctIds(Singles(log))
    ensures PostedBy(log) == if SomeArrived(log) then Singles(log) else []
  {
    if log != [] {
      var before, ev := log[..|log| - 1], log[|log| - 1];
      ProperBefore(items, log);
      SinglesGrow(log, |log| - 1);
      PostedOnce(items, before);
      ArrivedBefore(log);
      if ev.Sent? && ev.arrived {
        if SomeArrived(before) {
          SeenAlbumIsDropped(Singles(before), ev.album);
        } else {
          assert [] + ev.album == ev.album;
          FreshAlbumIsPosted([], ev.album);
        }
      } else if ev.Registered? && SomeArrived(before) {
        NothingAfterArrival(items, log);
      }
    }
  }

  lemma ArrivedBefore(log: seq<Event>)
    requires log != []
    ensures SomeArrived(log) <==> SomeArrived(log[..|log| - 1]) || (log[|log| - 1].Sent? && log[|log| - 1].arrived)
  {
    var before := log[..|log| - 1];
    if SomeArrived(before) {
      var j :| 0 <= j < |before| && before[j].Sent? && before[j].arrived;
      assert log[j] == before[j];
    }
    if SomeArrived(log) {
      var j :| 0 <= j < |log| && log[j].Sent? && log[j].arrived;
      assert j < |before| ==> before[j] == log[j];
    }
  }

  lemma NothingAfterArrival(items: seq<Item>, log: seq<Event>)
    requires Proper(items, log) && log != [] && SomeArrived(log[..|log| - 1])
    ensures !log[|log| - 1].Registered?
  {
    var before := log[..|log| - 1];
    ProperBefore(items, log);
    var j :| 0 <= j < |before| && before[j].Sent? && before[j].arrived;
    EverySendIsTheSame(items, before, j);
  }

  // ---- the code -----------------------------------------------------------

  /** The cache of registrations holds exactly what the log registered. */
  predicate Caches(cache: seq<Option<Single>>, log: seq<Event>) {
    |Singles(log)| <= |cache| &&
    forall i :: 0 <= i < |cache| ==> cache[i] == if i < |Singles(log)| then Some(Singles(log)[i]) else None
  }

  predicate OnlyRegisters(log0: seq<Event>, log: seq<Event>) {
    log0 <= log && (|log| > |log0| ==> log[|log| - 1].Registered?)
  }

  lemma RegistersOn(a: seq<Event>, b: seq<Event>, c: seq<Event>)
    requires OnlyRegisters(a, b) && OnlyRegisters(b, c)
    ensures OnlyRegisters(a, c)
  {
    if |c| == |b| {
      assert c == b;
    }
  }

  /** What the log has more than before is what the gate saw go over the network. */
  ghost predicate Noted(trace0: seq<Act<Event>>, log0: seq<Event>, trace: seq<Act<Event>>, log: seq<Event>) {
    log0 <= log && trace == trace0 + Transfers(log[|log0|..])
  }

  lemma NotedOn(t0: seq<Act<Event>>, a: seq<Event>, t1: seq<Act<Event>>, b: seq<Event>, t2: seq<Act<Event>>, c: seq<Event>)
    requires Noted(t0, a, t1, b) && Noted(t1, b, t2, c)
    ensures Noted(t0, a, t2, c)
  {
    var x, y := b[|a|..], c[|b|..];
    assert b == a + x && c == b + y;
    SuffixOf(a, x, y);
    TransfersConcat(x, y);
    Regroup(t0, Transfers(x), Transfers(y));
  }

  lemma SuffixOf(a: seq<Event>, x: seq<Event>, y: seq<Event>)
    ensures a <= a + x + y && (a + x + y)[|a|..] == x + y
  {
  }

  lemma Regroup(a: seq<Act<Event>>, b: seq<Act<Event>>, c: seq<Act<Event>>)
    ensures a + b + c == a + (b + c)
  {
  }

  /** The whole log, seen from the start. */
  lemma NotedFromStart(t0: seq<Act<Event>>, t1: seq<Act<Event>>, before: seq<Event>, t2: seq<Act<Event>>, log: seq<Event>)
    requires t1 == t0 + Transfers(before) && Noted(t1, before, t2, log)
    ensures t2 == t0 + Transfers(log)
  {
    var y := log[|before|..];
    assert log == before + y;
    TransfersConcat(before, y);
    Regroup(t0, Transfers(before), Transfers(y));
  }

  lemma NotedOne(trace: seq<Act<Event>>, log: seq<Event>, ev: Event)
    ensures Noted(trace, log, trace, log) && Noted(trace, log, trace + [Transfer(ev)], log + [ev])
  {
    assert log[|log|..] == [] && trace + Transfers<Event>([]) == trace;
    assert (log + [ev])[|log|..] == [ev] && Transfers([ev]) == [Transfer(ev)];
  }

  /** Item i of an attempt: an item registered earlier is skipped. */
  method RegisterItem(gate: Gate<Event>, w: World, t: nat, items: seq<Item>, registered: array<Option<Single>>, i: nat, log0: seq<Event>)
    returns (failure: Option<Outcome>, log: seq<Event>)
    requires gate.buffered == GATE_SIZE
    requires Keeps(items, registered[..], log0) && i < |items| && i <= |Singles(log0)|
    modifies registered, gate`trace
    ensures Keeps(items, registered[..], log)
    ensures OnlyRegisters(log0, log) && Noted(old(gate.trace), log0, gate.trace, log)
    ensures if failure == None then i < |Singles(log)| else failure.value.Failed?
  {
    log, failure := log0, None;
    var single := Single(w.media(t), w.random(t), items[i].caption);
    NotedOne(gate.trace, log0, Registered(i, single));
    if w.cancelled(t) {
      return Some(Failed(false)), log;
    }
    if registered[i] == None {
      if w.reply(t) != Fine {
        return Some(Failed(w.reply(t) == Transient)), log;
      }
      RegisterNext(items, registered[..], log, i, single);
      ghost var cache := registered[..];
      registered[i] := Some(single);
      assert registered[..] == cache[i := Some(single)];
      gate.Note(Registered(i, single));
      log := log + [Registered(i, single)];
    }
  }

  method RegisterMissing(gate: Gate<Event>, w: World, t0: nat, items: seq<Item>, registered: array<Option<Single>>, log0: seq<Event>)
    returns (failure: Option<Outcome>, t: nat, log: seq<Event>)
    requires gate.buffered == GATE_SIZE && Keeps(items, registered[..], log0)
    modifies registered, gate`trace
    ensures t >= t0 && Keeps(items, registered[..], log)
    ensures OnlyRegisters(log0, log) && Noted(old(gate.trace), log0, gate.trace, log)
    ensures if failure == None then |Singles(log)| == |items| else failure.value.Failed?
  {
    t, log, failure := t0, log0, None;
    NotedOne(gate.trace, log0, Registered(0, Single(0, 0, "")));
    var i := 0;
    while i < |items|
      invariant 0 <= i <= |items| && t >= t0 && failure == None
      invariant Keeps(items, registered[..], log) && i <= |Singles(log)|
      invariant OnlyRegisters(log0, log) && Noted(old(gate.trace), log0, gate.trace, log)
    {
      t := t + 1;
      ghost var before, trace := log, gate.trace;
      failure, log := RegisterItem(gate, w, t, items, registered, i, log);
      RegistersOn(log0, before, log);
      NotedOn(old(gate.trace), log0, trace, before, gate.trace, log);
      if failure != None {
        return;
      }
      i := i + 1;
    }
  }

  method Assemble(registered: array<Option<Single>>, ghost log: seq<Event>) returns (album: seq<Single>)
    requires Caches(registered[..], log) && |Singles(log)| == registered.Length
    ensures album == Singles(log)
  {
    album := [];
    var i := 0;
    while i < registered.Length
      invariant 0 <= i <= registered.Length && album == Singles(log)[..i]
    {
      assert registered[..][i] == Some(Singles(log)[i]);
      album := album + [registered[i].value];
      i := i + 1;
    }
  }

  method UploadAndSendOnce(gate: Gate<Event>, w: World, t0: nat, items: seq<Item>, registered: array<Option<Single>>, log0: seq<Event>)
    returns (outcome: Outcome, t: nat, log: seq<Event>)
    requires gate.buffered == GATE_SIZE && Keeps(items, registered[..], log0)
    modifies registered, gate`trace
    ensures t >= t0 && Keeps(items, registered[..], log)
    ensures Noted(old(gate.trace), log0, gate.trace, log)
    ensures outcome == Posted <==> |log| > |log0| && EndsWell(log)
    ensures outcome != NotStarted
  {
    t, log := t0, log0;
    if w.reply(t) != Fine {
      NotedOne(gate.trace, log, Registered(0, Single(0, 0, "")));
      return Failed(w.reply(t) == Transient), t, log;
    }
    var failure;
    failure, t, log := RegisterMissing(gate, w, t, items, registered, log0);
    if failure != None {
      return failure.value, t, log;
    }
    var album := Assemble(registered, log);
    t := t + 1;
    var reply := w.reply(t);
    var send := Sent(album, reply == Fine || w.arrives(t), reply);
    SendNext(items, registered[..], log, reply == Fine || w.arrives(t), reply);
    NotedOne(gate.trace, log, send);
    NotedOn(old(gate.trace), log0, gate.trace, log, gate.trace + [Transfer(send)], log + [send]);
    gate.Note(send);
    log := log + [send];
    outcome := if reply == Fine then Posted else Failed(reply == Transient);
  }

  /** The last thing that happened is a send the server confirmed. */
  predicate EndsWell(log: seq<Event>) {
    log != [] && log[|log| - 1].Sent? && log[|log| - 1].reply == Fine
  }

  predicate Keeps(items: seq<Item>, cache: seq<Option<Single>>, log: seq<Event>) {
    |cache| == |items| && Proper(items, log) && Caches(cache, log)
  }

  lemma RegisterNext(items: seq<Item>, cache: seq<Option<Single>>, log: seq<Event>, i: nat, single: Single)
    requires Keeps(items, cache, log) && i < |items| && i <= |Singles(log)| && cache[i] == None
    requires single.message == items[i].caption
    ensures Keeps(items, cache[i := Some(single)], log + [Registered(i, single)])
    ensures i + 1 <= |Singles(log + [Registered(i, single)])|
  {
    Snoc(items, log, Registered(i, single));
  }

  lemma SendNext(items: seq<Item>, cache: seq<Option<Single>>, log: seq<Event>, arrived: bool, reply: Reply)
    requires Keeps(items, cache, log) && |Singles(log)| == |items| && (reply == Fine ==> arrived)
    ensures Keeps(items, cache, log + [Sent(Singles(log), arrived, reply)])
    ensures EndsWell(log + [Sent(Singles(log), arrived, reply)]) <==> reply == Fine
  {
    Snoc(items, log, Sent(Singles(log), arrived, reply));
  }

  /** Attempts until success, cancellation, a permanent error or the budget; registrations persist across them. */
  method WithUploadRetry(gate: Gate<Event>, w: World, items: seq<Item>) returns (outcome: Outcome, attempts: nat, log: seq<Event>)
    requires gate.buffered == GATE_SIZE
    modifies gate`trace
    ensures attempts <= MAX_ATTEMPTS && Proper(items, log)
    ensures outcome == Posted <==> EndsWell(log)
    ensures gate.trace == old(gate.trace) + Transfers(log)
  {
    var registered := new Option<Single>[|items|](_ => None);
    log, attempts, outcome := [], 0, NotStarted;
    assert gate.trace + Transfers<Event>([]) == gate.trace;
    var t := 0;
    while attempts < MAX_ATTEMPTS
      invariant attempts <= MAX_ATTEMPTS && Keeps(items, registered[..], log)
      invariant gate.trace == old(gate.trace) + Transfers(log)
      invariant outcome != Posted && !EndsWell(log)
    {
      t := t + 1;
      if !w.ready(t) {
        outcome := Failed(false);
        break;
      }
      attempts := attempts + 1;
      ghost var before, trace := log, gate.trace;
      outcome, t, log := UploadAndSendOnce(gate, w, t, items, registered, log);
      NotedFromStart(old(gate.trace), trace, before, gate.trace, log);
      if outcome == Posted || w.cancelled(t) || !outcome.transient {
        break;
      }
    }
  }

  /** All attempts are made while the gate is held, and every way out of them gives it back. */
  method UploadAndSendAudioGroup(gate: Gate<Event>, ctxDone: bool, w: World, items: seq<Item>)
    returns (outcome: Outcome, attempts: nat, log: seq<Event>)
    requires gate.buffered < GATE_SIZE || ctxDone
    modifies gate
    ensures gate.buffered == old(gate.buffered)
    ensures attempts <= MAX_ATTEMPTS && Proper(items, log)
    ensures outcome == Posted <==> EndsWell(log)
    ensures old(gate.trace) <= gate.trace && Bracketed(gate.trace[|old(gate.trace)|..])
    ensures gate.trace == old(gate.trace) + [Take] + Transfers(log) + [Give] || (gate.trace == old(gate.trace) && log == [] && ctxDone)
  {
    var ok := gate.Acquire(ctxDone);
    if !ok {
      assert gate.trace[|old(gate.trace)|..] == [];
      return NotStarted, 0, [];
    }
    outcome, attempts, log := WithUploadRetry(gate, w, items);
    gate.Release();
    assert gate.trace[|old(gate.trace)|..] == [Take] + Transfers(log) + [Give];
  }

  /** What the caller learns from success: the server has posted the album once, whole and in the items' order. */
  lemma SuccessPostsOnce(items: seq<Item>, log: seq<Event>)
    requires Proper(items, log) && EndsWell(log) && DistinctIds(Singles(log))
    ensures PostedBy(log) == Singles(log) && |PostedBy(log)| == |items|
  {
    assert Fits(items, log[..|log| - 1], log[|log| - 1]);
    EverySendIsTheSame(items, log, |log| - 1);
    PostedOnce(items, log);
  }
}
