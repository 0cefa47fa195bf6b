/**
 Ordered delivery of a collection (bot/collection_delivery.go): runs of messages of one dump go out as
 one batch, everything else and every item of a failed batch goes out alone, in place. A batch is all or
 nothing. The log lists the calls of the two callbacks with their outcomes.
 */
module CollectionDelivery {

  datatype Ref = Ref(dump: int, msg: int)

  datatype Event =
    | Batch(first: nat, dump: int, ids: seq<int>, ok: bool)
    | Fallback(pos: nat, ok: bool)

  /** Outcomes and cancellation, by a clock that ticks at every call and every look at the context. */
  datatype World = World(succeeds: nat -> bool, cancelled: nat -> bool)

  const MAX_BATCH := 90

  predicate Ready(r: Ref) {
    r.dump != 0 && r.msg != 0
  }

  // ---- what a log did -----------------------------------------------------

  function Range(a: nat, b: nat): seq<nat>
    requires a <= b
  {
    seq(b - a, k requires 0 <= k < b - a => a + k)
  }

  function Start(ev: Event): nat {
    match ev
    case Batch(first, _, _, _) => first
    case Fallback(pos, _) => pos
  }

  /** The positions an event settles: sent, or tried alone. */
  function Settles(ev: Event): seq<nat> {
    match ev
    case Batch(first, _, ids, ok) => if ok then Range(first, first + |ids|) else []
    case Fallback(pos, _) => [pos]
  }

  function Settled(log: seq<Event>): seq<nat> {
    if log == [] then [] else Settled(log[..|log| - 1]) + Settles(log[|log| - 1])
  }

  function Width(ev: Event): nat {
    match ev
    case Batch(_, _, ids, ok) => if ok then |ids| else 0
    case Fallback(_, _) => 1
  }

  /** How many positions are settled. */
  function Progress(log: seq<Event>): nat {
    if log == [] then 0 else Progress(log[..|log| - 1]) + Width(log[|log| - 1])
  }

  function Sends(ev: Event): seq<nat> {
    if ev.ok then Settles(ev) else []
  }

  /** The positions that reached the user, in the order they did. */
  function Sent(log: seq<Event>): seq<nat> {
    if log == [] then [] else Sent(log[..|log| - 1]) + Sends(log[|log| - 1])
  }

  function Batches(log: seq<Event>): seq<(nat, nat)> {
    if log == [] then []
    else Batches(log[..|log| - 1]) +
         match log[|log| - 1]
         case Batch(first, _, ids, _) => [(first, first + |ids|)]
         case Fallback(_, _) => []
  }

  // ---- batches ------------------------------------------------------------

  /** One dump, increasing message ids, not too long. */
  predicate ValidBatch(tracks: seq<Ref>, a: nat, b: nat) {
    && a < b <= |tracks| && b - a <= MAX_BATCH
    && forall k :: a < k < b ==> tracks[k].dump == tracks[a].dump && tracks[k - 1].msg < tracks[k].msg
  }

  function EndFrom(tracks: seq<Ref>, i: nat, end: nat): (e: nat)
    requires ValidBatch(tracks, i, end)
    ensures end <= e && ValidBatch(tracks, i, e)
    ensures forall b: nat :: ValidBatch(tracks, i, b) ==> b <= e
    decreases |tracks| - end
  {
    if end < |tracks| && end - i < MAX_BATCH && tracks[end].dump == tracks[i].dump && tracks[end].msg > tracks[end - 1].msg
    then EndFrom(tracks, i, end + 1) else end
  }

  /** The end of the longest batch from i. */
  function End(tracks: seq<Ref>, i: nat): (e: nat)
    requires i < |tracks|
    ensures ValidBatch(tracks, i, e) && forall b: nat :: ValidBatch(tracks, i, b) ==> b <= e
  {
    EndFrom(tracks, i, i + 1)
  }

  function Ids(tracks: seq<Ref>, a: nat, b: nat): (ids: seq<int>)
    requires a <= b <= |tracks|
    ensures |ids| == b - a
  {
    seq(b - a, k requires 0 <= k < b - a => tracks[a + k].msg)
  }

  /** What one call must be, after the calls before it. */
  predicate Fits(tracks: seq<Ref>, before: seq<Event>, ev: Event) {
    && Start(ev) == Progress(before) < |tracks|
    && match ev
       case Batch(first, dump, ids, _) =>
         Ready(tracks[first]) && dump == tracks[first].dump && ids == Ids(tracks, first, End(tracks, first))
       case Fallback(pos, _) => !Ready(tracks[pos]) || Failed(before, pos)
  }

  /** pos was in a batch that failed. */
  predicate Failed(log: seq<Event>, pos: nat) {
    exists j :: 0 <= j < |log| && log[j].Batch? && !log[j].ok && log[j].first <= pos < log[j].first + |log[j].ids|
  }

  predicate Proper(tracks: seq<Ref>, log: seq<Event>) {
    forall j :: 0 <= j < |log| ==> Fits(tracks, log[..j], log[j])
  }

  /** The log has settled the positions below i, and delivered counts what was sent. */
  predicate UpTo(tracks: seq<Ref>, log: seq<Event>, i: nat, delivered: nat) {
    Proper(tracks, log) && Progress(log) == i && delivered == |Sent(log)|
  }

  lemma ProperSnoc(tracks: seq<Ref>, log: seq<Event>, ev: Event)
    requires Proper(tracks, log) && Fits(tracks, log, ev)
    ensures Proper(tracks, log + [ev])
  {
    var all := log + [ev];
    assert all[..|log|] == log;
    forall j | 0 <= j < |all| ensures Fits(tracks, all[..j], all[j]) {
      if j < |log| {
        assert all[..j] == log[..j] && all[j] == log[j];
      }
    }
  }

  lemma Snoc(log: seq<Event>, ev: Event)
    ensures Settled(log + [ev]) == Settled(log) + Settles(ev) && Progress(log + [ev]) == Progress(log) + Width(ev)
    ensures Sent(log + [ev]) == Sent(log) + Sends(ev)
    ensures Batches(log + [ev]) == Batches(log) + if ev.Batch? then [(ev.first, ev.first + |ev.ids|)] else []
  {
    assert (log + [ev])[..|log|] == log;
  }

  lemma RangeSplits(a: nat, b: nat, c: nat)
    requires a <= b <= c
    ensures Range(a, b) + Range(b, c) == Range(a, c)
  {
  }

  lemma FallbackStep(tracks: seq<Ref>, log: seq<Event>, i: nat, delivered: nat, ok: bool)
    requires UpTo(tracks, log, i, delivered) && i < |tracks| && (!Ready(tracks[i]) || Failed(log, i))
    ensures UpTo(tracks, log + [Fallback(i, ok)], i + 1, if ok then delivered + 1 else delivered)
    ensures Batches(log + [Fallback(i, ok)]) == Batches(log)
  {
    ProperSnoc(tracks, log, Fallback(i, ok));
    Snoc(log, Fallback(i, ok));
  }

  function Call(tracks: seq<Ref>, i: nat, ok: bool): Event
    requires i < |tracks|
  {
    Batch(i, tracks[i].dump, Ids(tracks, i, End(tracks, i)), ok)
  }

  lemma BatchStep(tracks: seq<Ref>, log: seq<Event>, i: nat, delivered: nat, ok: bool)
    requires UpTo(tracks, log, i, delivered) && i < |tracks| && Ready(tracks[i])
    ensures ok ==> UpTo(tracks, log + [Call(tracks, i, ok)], End(tracks, i), delivered + End(tracks, i) - i)
    ensures !ok ==> UpTo(tracks, log + [Call(tracks, i, ok)], i, delivered)
    ensures Batches(log + [Call(tracks, i, ok)]) == Batches(log) + [(i, End(tracks, i))]
  {
    var call := Call(tracks, i, ok);
    ProperSnoc(tracks, log, call);
    Snoc(log, call);
  }

  lemma JustFailed(tracks: seq<Ref>, log: seq<Event>, i: nat, k: nat)
    requires i <= k && i < |tracks| && k < End(tracks, i)
    ensures Failed(log + [Call(tracks, i, false)], k)
  {
    var call := Call(tracks, i, false);
    assert (log + [call])[|log|] == call;
  }

  predicate Segmented(tracks: seq<Ref>, log: seq<Event>, i: nat) {
    i <= |tracks| && Batches(log) + Greedy(tracks, i) == Greedy(tracks, 0)
  }

  lemma SegmentedStep(tracks: seq<Ref>, log: seq<Event>, later: seq<Event>, i: nat)
    requires i < |tracks| && Segmented(tracks, log, i)
    ensures !Ready(tracks[i]) && Batches(later) == Batches(log) ==> Segmented(tracks, later, i + 1)
    ensures Ready(tracks[i]) && Batches(later) == Batches(log) + [(i, End(tracks, i))] ==> Segmented(tracks, later, End(tracks, i))
  {
    if Ready(tracks[i]) {
      var e := End(tracks, i);
      assert Batches(log) + [(i, e)] + Greedy(tracks, e) == Batches(log) + ([(i, e)] + Greedy(tracks, e));
    }
  }

  // ---- the code -----------------------------------------------------------

  method RetryEach(tracks: seq<Ref>, w: World, i: nat, end: nat, t0: nat, delivered0: nat, log0: seq<Event>)
    returns (delivered: nat, stopped: bool, t: nat, log: seq<Event>)
    requires i <= end <= |tracks| && UpTo(tracks, log0, i, delivered0)
    requires forall k :: i <= k < end ==> Failed(log0, k)
    ensures Progress(log) <= end && UpTo(tracks, log, Progress(log), delivered) && Batches(log) == Batches(log0)
    ensures !stopped ==> Progress(log) == end
    ensures stopped ==> exists u :: w.cancelled(u)
  {
    delivered, t, log, stopped := delivered0, t0, log0, false;
    var j := i;
    while j < end
      invariant i <= j <= end && !stopped && log0 <= log && UpTo(tracks, log, j, delivered) && Batches(log) == Batches(log0)
    {
      t := t + 1;
      if w.cancelled(t) {
        stopped := true;
        break;
      }
      var ok := w.succeeds(t);
      StillFailed(log0, log, j);
      FallbackStep(tracks, log, j, delivered, ok);
      log := log + [Fallback(j, ok)];
      if ok {
        delivered := delivered + 1;
      }
      j := j + 1;
    }
  }

  lemma StillFailed(before: seq<Event>, log: seq<Event>, pos: nat)
    requires before <= log && Failed(before, pos)
    ensures Failed(log, pos)
  {
    var j :| 0 <= j < |before| && before[j].Batch? && !before[j].ok && before[j].first <= pos < before[j].first + |before[j].ids|;
    assert log[j] == before[j];
  }

  method DeliverOrdered(tracks: seq<Ref>, w: World) returns (delivered: nat, interrupted: bool, log: seq<Event>)
    ensures Progress(log) <= |tracks| && UpTo(tracks, log, Progress(log), delivered)
    ensures !interrupted ==> Progress(log) == |tracks| && Batches(log) == Greedy(tracks, 0)
    ensures interrupted ==> exists u :: w.cancelled(u)
  {
    delivered, log, interrupted := 0, [], false;
    var i, t := 0, 0;
    while i < |tracks|
      invariant 0 <= i <= |tracks| && !interrupted && UpTo(tracks, log, i, delivered) && Segmented(tracks, log, i)
    {
      t := t + 1;
      if w.cancelled(t) {
        return delivered, true, log;
      }
      var ok := w.succeeds(t);
      ghost var before := log;
      if tracks[i].dump == 0 || tracks[i].msg == 0 {
        FallbackStep(tracks, log, i, delivered, ok);
        log := log + [Fallback(i, ok)];
        if ok {
          delivered := delivered + 1;
        }
        SegmentedStep(tracks, before, log, i);
        i := i + 1;
        continue;
      }
      var end := BatchEnd(tracks, i);
      var ids := BatchIds(tracks, i, end);
      BatchStep(tracks, log, i, delivered, ok);
      log := log + [Batch(i, tracks[i].dump, ids, ok)];
      if ok {
        delivered := delivered + |ids|;
      } else {
        forall k: nat | i <= k < end ensures Failed(log, k) {
          JustFailed(tracks, before, i, k);
        }
        delivered, interrupted, t, log := RetryEach(tracks, w, i, end, t, delivered, log);
        if interrupted {
          return;
        }
      }
      SegmentedStep(tracks, before, log, i);
      i := end;
    }
    assert Batches(log) + [] == Batches(log);
    interrupted := w.cancelled(t + 1);
  }

  method BatchEnd(tracks: seq<Ref>, i: nat) returns (end: nat)
    requires i < |tracks|
    ensures end == End(tracks, i)
  {
    end := i + 1;
    while end < |tracks| && end - i < MAX_BATCH && tracks[end].dump == tracks[i].dump && tracks[end].msg > tracks[end - 1].msg
      invariant i < end <= |tracks| && ValidBatch(tracks, i, end) && EndFrom(tracks, i, end) == End(tracks, i)
    {
      end := end + 1;
    }
  }

  method BatchIds(tracks: seq<Ref>, i: nat, end: nat) returns (ids: seq<int>)
    requires i <= end <= |tracks|
    ensures ids == Ids(tracks, i, end)
  {
    ids := [];
    for j := i to end
      invariant ids == Ids(tracks, i, j)
    {
      ids := ids + [tracks[j].msg];
    }
  }

  // ---- order --------------------------------------------------------------

  predicate Increasing(s: seq<nat>) {
    forall i, j :: 0 <= i < j < |s| ==> s[i] < s[j]
  }

  /** The settled positions are the first ones, each once and in order. */
  lemma {:induction false} SettledInOrder(tracks: seq<Ref>, log: seq<Event>)
    requires Proper(tracks, log)
    ensures Settled(log) == Range(0, Progress(log))
  {
    if log != [] {
      var before, ev := log[..|log| - 1], log[|log| - 1];
      ProperBefore(tracks, log);
      SettledInOrder(tracks, before);
      SettlesRange(ev);
      RangeSplits(0, Progress(before), Progress(log));
    }
  }

  lemma SettlesRange(ev: Event)
    ensures Settles(ev) == Range(Start(ev), Start(ev) + Width(ev))
  {
  }

  lemma ProperBefore(tracks: seq<Ref>, log: seq<Event>)
    requires Proper(tracks, log) && log != []
    ensures Proper(tracks, log[..|log| - 1]) && Start(log[|log| - 1]) == Progress(log[..|log| - 1])
  {
    var before := log[..|log| - 1];
    assert forall j :: 0 <= j < |before| ==> before[..j] == log[..j];
    assert Fits(tracks, log[..|log| - 1], log[|log| - 1]);
  }

  /** Whatever succeeds, the user sees increasing positions, none twice, and only settled ones. */
  lemma {:induction false} SentInOrder(tracks: seq<Ref>, log: seq<Event>)
    requires Proper(tracks, log)
    ensures Increasing(Sent(log)) && forall k :: 0 <= k < |Sent(log)| ==> Sent(log)[k] < Progress(log)
  {
    if log != [] {
      var before, ev := log[..|log| - 1], log[|log| - 1];
      ProperBefore(tracks, log);
      SentInOrder(tracks, before);
      SettlesRange(ev);
      StillIncreasing(Sent(before), Settles(ev), Progress(before));
    }
  }

  lemma StillIncreasing(s: seq<nat>, more: seq<nat>, n: nat)
    requires Increasing(s) && (forall k :: 0 <= k < |s| ==> s[k] < n) && more == Range(n, n + |more|)
    ensures Increasing(s + more) && forall k :: 0 <= k < |s + more| ==> (s + more)[k] < n + |more|
  {
  }

  /** Every position that was settled but not sent was tried alone, and the attempt failed. */
  lemma {:induction false} UnsentFailedAlone(tracks: seq<Ref>, log: seq<Event>, pos: nat)
    requires Proper(tracks, log) && pos in Settled(log) && pos !in Sent(log)
    ensures Fallback(pos, false) in log
  {
    var before, ev := log[..|log| - 1], log[|log| - 1];
    ProperBefore(tracks, log);
    if pos in Settled(before) {
      UnsentFailedAlone(tracks, before, pos);
    }
  }

  /** A batch goes out of one dump in increasing message order, so all its ids are real when the first one is. */
  lemma BatchIsSendable(tracks: seq<Ref>, log: seq<Event>, j: nat)
    requires Proper(tracks, log) && j < |log| && log[j].Batch?
    ensures var b := log[j]; 1 <= |b.ids| <= MAX_BATCH && (forall k, l :: 0 <= k < l < |b.ids| ==> b.ids[k] < b.ids[l])
    ensures var b := log[j]; forall k :: 0 <= k < |b.ids| ==> tracks[b.first + k].dump == b.dump && tracks[b.first + k].msg == b.ids[k]
    ensures var b := log[j]; b.dump != 0 && b.ids[0] != 0 && (b.ids[0] > 0 ==> forall k :: 0 <= k < |b.ids| ==> b.ids[k] > 0)
  {
    var b := log[j];
    assert Fits(tracks, log[..j], b);
    IdsIncrease(tracks, b.first, End(tracks, b.first));
  }

  lemma {:induction false} IdsIncrease(tracks: seq<Ref>, a: nat, b: nat)
    requires ValidBatch(tracks, a, b)
    ensures forall k, l :: a <= k < l < b ==> tracks[k].msg < tracks[l].msg
    decreases b
  {
    if b - a > 1 {
      IdsIncrease(tracks, a, b - 1);
      assert tracks[b - 1 - 1].msg < tracks[b - 1].msg;
    }
  }

  // ---- fewest batches -----------------------------------------------------

  /** The code's split, from position i. */
  function Greedy(tracks: seq<Ref>, i: nat): seq<(nat, nat)>
    requires i <= |tracks|
    decreases |tracks| - i
  {
    if i == |tracks| then []
    else if !Ready(tracks[i]) then Greedy(tracks, i + 1)
    else [(i, End(tracks, i))] + Greedy(tracks, End(tracks, i))
  }

  /** Any way to send the tracks from i on in order, in valid batches, unready ones alone. */
  predicate Splits(tracks: seq<Ref>, i: nat, parts: seq<(nat, nat)>)
    requires i <= |tracks|
    decreases |tracks| - i
  {
    if i == |tracks| then parts == []
    else if !Ready(tracks[i]) then Splits(tracks, i + 1, parts)
    else parts != [] && parts[0].0 == i && ValidBatch(tracks, i, parts[0].1) && Splits(tracks, parts[0].1, parts[1..])
  }

  lemma {:induction false} GreedySplits(tracks: seq<Ref>, i: nat)
    requires i <= |tracks|
    ensures Splits(tracks, i, Greedy(tracks, i))
    decreases |tracks| - i
  {
    if i < |tracks| {
      if !Ready(tracks[i]) {
        GreedySplits(tracks, i + 1);
      } else {
        GreedySplits(tracks, End(tracks, i));
      }
    }
  }

  /** Starting later never costs more batches. */
  lemma {:induction false} LaterIsNoWorse(tracks: seq<Ref>, i: nat, j: nat)
    requires i <= j <= |tracks|
    ensures |Greedy(tracks, j)| <= |Greedy(tracks, i)|
    decreases |tracks| - i, |tracks| - j
  {
    if i < j {
      if !Ready(tracks[i]) {
        LaterIsNoWorse(tracks, i + 1, j);
      } else {
        var e := End(tracks, i);
        if e <= j {
          LaterIsNoWorse(tracks, e, j);
        } else if !Ready(tracks[j]) {
          LaterIsNoWorse(tracks, i, j + 1);
        } else {
          assert ValidBatch(tracks, j, e);
          LaterIsNoWorse(tracks, e, End(tracks, j));
        }
      }
    }
  }

  /** No valid order-preserving split needs fewer batches than the code's. */
  lemma {:induction false} GreedyIsFewest(tracks: seq<Ref>, i: nat, parts: seq<(nat, nat)>)
    requires i <= |tracks| && Splits(tracks, i, parts)
    ensures |Greedy(tracks, i)| <= |parts|
    decreases |tracks| - i
  {
    if i < |tracks| {
      if !Ready(tracks[i]) {
        GreedyIsFewest(tracks, i + 1, parts);
      } else {
        GreedyIsFewest(tracks, parts[0].1, parts[1..]);
        LaterIsNoWorse(tracks, parts[0].1, End(tracks, i));
      }
    }
  }
}
