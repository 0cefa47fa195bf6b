/**
 The concurrent task scheduler of bot/telegram_bot.go: the download channel and its display
 mirror, the single scheduler goroutine, the head and the sticky borrower, the tables that /stop
 searches, and the per-user task counts. One step is one critical section of the queue lock, or
 one of the few actions taken without it (receiving from the channel, noticing that the head's
 download is over).
 */
module Scheduler {
  import opened Options

  datatype Mode = TelegramIndividual | TelegramZip | GofileZip | OtherMode

  /** user 0 is headless and is not counted. */
  datatype Request = Request(id: string, user: int, mode: Mode)

  /** A rip goroutine; done means it has reported the end of its download phase. */
  datatype Run = Run(borrower: bool, done: bool)

  /** Where the scheduler goroutine is. */
  datatype Hand =
    | Receiving
    | InHand(req: Request)                          // received, not yet started
    | Waiting(head: Request)
    | Peeked(head: Request, cand: Request)          // the front task looked lendable; lock dropped
    | Lending(head: Request, req: Request)          // taken from the channel for the borrow slot

  datatype Queue = Queue(
    chan: seq<Request>,
    mirror: seq<Request>,
    log: seq<Request>,          // history: everything ever enqueued
    cancelled: set<Request>,    // history: cancelled while queued
    started: seq<Request>)      // history: in the order rips were started

  datatype Tables = Tables(
    active: Option<Request>,
    headRip: Option<Request>,
    borrow: Option<Request>,
    uploading: set<Request>,
    running: map<Request, Run>,
    closed: set<Request>)       // download-done channels already closed

  datatype Sys = Sys(q: Queue, hand: Hand, t: Tables, count: map<int, nat>)

  datatype Step =
    | Enqueue(r: Request, cap: nat)
    | Receive
    | StartHead
    | DownloadDone(t: Request)
    | HeadDone
    | Peek(remaining: int, threshold: int, tracks: int, maxTracks: int)
    | PeekDeclined
    | Lend
    | StartBorrower
    | Finish(t: Request)
    | CancelQueued(r: Request)
    | CancelAll

  const START := Sys(Queue([], [], [], {}, []), Receiving, Tables(None, None, None, {}, map[], {}), map[])

  function IsTelegram(m: Mode): bool {
    m == TelegramIndividual || m == TelegramZip
  }

  predicate Enabled(s: Sys, step: Step) {
    match step
    case Enqueue(r, cap) => forall x :: x in s.q.log ==> x.id != r.id
    case Receive => s.hand.Receiving? && s.q.chan != []
    case StartHead => s.hand.InHand?
    case DownloadDone(t) => t in s.t.running && !s.t.running[t].done
    case HeadDone => s.hand.Waiting? && s.hand.head in s.t.closed
    case Peek(remaining, threshold, tracks, maxTracks) =>
      && s.hand.Waiting? && s.t.borrow == None && s.t.headRip.Some? && s.q.mirror != []
      && IsTelegram(s.t.headRip.value.mode) && remaining > threshold
      && s.q.mirror[0].mode == GofileZip && 0 < tracks < maxTracks
    case PeekDeclined => s.hand.Peeked?
    case Lend => s.hand.Peeked?
    case StartBorrower => s.hand.Lending?
    case Finish(t) => t in s.t.running && s.t.running[t].done
    case CancelQueued(r) => r in s.q.chan
    case CancelAll => true
  }

  // ---- what each step does ------------------------------------------------

  /** xs without the requests in gone, in the same order. */
  function Keep(xs: seq<Request>, gone: set<Request>): seq<Request> {
    if xs == [] then [] else (if xs[0] in gone then [] else [xs[0]]) + Keep(xs[1..], gone)
  }

  /** The validation that lending repeats under the lock. */
  predicate StillLendable(s: Sys)
    requires s.hand.Peeked?
  {
    s.t.borrow == None && s.q.mirror != [] && s.q.mirror[0].id == s.hand.cand.id && s.q.chan != []
  }

  predicate Drifted(s: Sys)
    requires s.hand.Peeked?
  {
    StillLendable(s) && s.q.chan[0].id != s.hand.cand.id
  }

  predicate Accepted(s: Sys, step: Step) {
    step.Enqueue? && |s.q.chan| < step.cap
  }

  function QueueAfter(s: Sys, step: Step): Queue
    requires Enabled(s, step)
  {
    var q := s.q;
    match step
    case Enqueue(r, _) =>
      if Accepted(s, step) then q.(chan := q.chan + [r], mirror := q.mirror + [r], log := q.log + [r]) else q
    case Receive => q.(chan := q.chan[1..])
    case StartHead => q.(mirror := Keep(q.mirror, {s.hand.req}), started := q.started + [s.hand.req])
    case Lend =>
      if !StillLendable(s) then q
      else if Drifted(s) then q.(chan := q.chan[1..] + [q.chan[0]])
      else q.(chan := q.chan[1..])
    case StartBorrower => q.(mirror := Keep(q.mirror, {s.hand.req}), started := q.started + [s.hand.req])
    case CancelQueued(r) =>
      q.(chan := Keep(q.chan, {r}), mirror := Keep(q.mirror, {r}), cancelled := q.cancelled + {r})
    case CancelAll =>
      var gone := set r | r in q.chan;
      q.(chan := [], mirror := Keep(q.mirror, gone), cancelled := q.cancelled + gone)
    case _ => q
  }

  function HandAfter(s: Sys, step: Step): Hand
    requires Enabled(s, step)
  {
    match step
    case Receive => InHand(s.q.chan[0])
    case StartHead => Waiting(s.hand.req)
    case HeadDone => Receiving
    case Peek(_, _, _, _) => Peeked(s.hand.head, s.q.mirror[0])
    case PeekDeclined => Waiting(s.hand.head)
    case Lend =>
      if StillLendable(s) && !Drifted(s) then Lending(s.hand.head, s.q.chan[0]) else Waiting(s.hand.head)
    case StartBorrower => Waiting(s.hand.head)
    case _ => s.hand
  }

  function Cleared(slot: Option<Request>, t: Request): Option<Request> {
    if slot == Some(t) then None else slot
  }

  function TablesAfter(s: Sys, step: Step): Tables
    requires Enabled(s, step)
  {
    var t := s.t;
    match step
    case StartHead =>
      t.(active := Some(s.hand.req), headRip := Some(s.hand.req), running := t.running[s.hand.req := Run(false, false)])
    case StartBorrower =>
      t.(borrow := Some(s.hand.req), running := t.running[s.hand.req := Run(true, false)])
    case DownloadDone(x) =>
      t.(uploading := t.uploading + {x}, running := t.running[x := t.running[x].(done := true)], closed := t.closed + {x})
    case Finish(x) =>
      var less := t.(uploading := t.uploading - {x}, running := t.running - {x});
      if t.running[x].borrower then less.(borrow := Cleared(t.borrow, x))
      else less.(active := Cleared(t.active, x), headRip := Cleared(t.headRip, x))
    case _ => t
  }

  function Tasks(count: map<int, nat>, user: int): nat {
    if user in count then count[user] else 0
  }

  function Raised(count: map<int, nat>, user: int): map<int, nat> {
    if user == 0 then count else count[user := Tasks(count, user) + 1]
  }

  /** The guarded decrement. */
  function Lowered(count: map<int, nat>, user: int): map<int, nat> {
    if user != 0 && Tasks(count, user) > 0 then count[user := Tasks(count, user) - 1] else count
  }

  function LoweredAll(count: map<int, nat>, gone: seq<Request>): map<int, nat>
    decreases |gone|
  {
    if gone == [] then count else LoweredAll(Lowered(count, gone[0].user), gone[1..])
  }

  function CountAfter(s: Sys, step: Step): map<int, nat>
    requires Enabled(s, step)
  {
    match step
    case Enqueue(r, _) => if Accepted(s, step) then Raised(s.count, r.user) else s.count
    case Finish(t) => Lowered(s.count, t.user)
    case CancelQueued(r) => Lowered(s.count, r.user)
    case CancelAll => LoweredAll(s.count, s.q.chan)
    case _ => s.count
  }

  function Apply(s: Sys, step: Step): Sys
    requires Enabled(s, step)
  {
    Sys(QueueAfter(s, step), HandAfter(s, step), TablesAfter(s, step), CountAfter(s, step))
  }

  // ---- sequences without repetition ---------------------------------------

  ghost predicate Distinct(xs: seq<Request>) {
    forall i, j :: 0 <= i < j < |xs| ==> xs[i].id != xs[j].id
  }

  lemma {:induction false} KeepConcat(a: seq<Request>, b: seq<Request>, gone: set<Request>)
    ensures Keep(a + b, gone) == Keep(a, gone) + Keep(b, gone)
  {
    if a == [] {
      assert a + b == b;
    } else {
      KeepConcat(a[1..], b, gone);
      assert (a + b)[1..] == a[1..] + b && (a + b)[0] == a[0];
      var head := if a[0] in gone then [] else [a[0]];
      assert head + (Keep(a[1..], gone) + Keep(b, gone)) == (head + Keep(a[1..], gone)) + Keep(b, gone);
    }
  }

  lemma {:induction false} KeepElements(xs: seq<Request>, gone: set<Request>)
    ensures forall x :: x in Keep(xs, gone) <==> x in xs && x !in gone
    ensures (forall x :: x in xs ==> x !in gone) ==> Keep(xs, gone) == xs
    ensures (forall x :: x in xs ==> x in gone) ==> Keep(xs, gone) == []
    ensures Distinct(xs) ==> Distinct(Keep(xs, gone))
  {
    if xs != [] {
      KeepElements(xs[1..], gone);
      assert xs == [xs[0]] + xs[1..];
      if Distinct(xs) {
        KeepFrontDistinct(xs[0], xs[1..], Keep(xs[1..], gone));
      }
    }
  }

  lemma KeepFrontDistinct(x: Request, rest: seq<Request>, kept: seq<Request>)
    requires Distinct([x] + rest) && (forall y :: y in kept ==> y in rest) && (Distinct(rest) ==> Distinct(kept))
    ensures Distinct(rest) && Distinct([x] + kept)
  {
    DistinctParts([x], rest);
    assert x in [x];
    forall j | 0 <= j < |kept| ensures kept[j].id != x.id {
      assert kept[j] in rest;
    }
  }

  lemma {:induction false} KeepTwice(xs: seq<Request>, a: set<Request>, b: set<Request>)
    ensures Keep(Keep(xs, a), b) == Keep(xs, a + b)
  {
    if xs != [] {
      KeepTwice(xs[1..], a, b);
      if xs[0] in a {
        assert Keep(xs, a) == Keep(xs[1..], a);
        assert Keep(xs, a + b) == Keep(xs[1..], a + b);
      } else {
        assert Keep(xs, a)[0] == xs[0] && Keep(xs, a)[1..] == Keep(xs[1..], a);
      }
    }
  }

  lemma DistinctParts(a: seq<Request>, b: seq<Request>)
    requires Distinct(a + b)
    ensures Distinct(a) && Distinct(b)
    ensures forall x, y :: x in a && y in b ==> x.id != y.id
  {
    var ab := a + b;
    forall i, j | 0 <= i < j < |b| ensures b[i].id != b[j].id {
      assert ab[|a| + i] == b[i] && ab[|a| + j] == b[j];
    }
    forall i, j | 0 <= i < j < |a| ensures a[i].id != a[j].id {
      assert ab[i] == a[i] && ab[j] == a[j];
    }
    forall x, y | x in a && y in b ensures x.id != y.id {
      var i :| 0 <= i < |a| && a[i] == x;
      var j :| 0 <= j < |b| && b[j] == y;
      assert ab[i] == x && ab[|a| + j] == y;
    }
  }

  // ---- order --------------------------------------------------------------

  /** The task between the channel and its start, if there is one. */
  function HandSeq(h: Hand): seq<Request> {
    match h
    case InHand(r) => [r]
    case Lending(_, r) => [r]
    case _ => []
  }

  /**
   The mirror is the task in hand followed by the channel; what was started followed by the
   mirror is what was enqueued, in that order, without what was cancelled in the queue.
   */
  ghost predicate Ordered(q: Queue, hand: Hand) {
    && Distinct(q.log)
    && q.mirror == HandSeq(hand) + q.chan
    && q.started + q.mirror == Keep(q.log, q.cancelled)
    && (forall x :: x in q.cancelled ==> x in q.log)
    && (hand.Peeked? ==> hand.cand in q.log && hand.cand.mode == GofileZip)
    && (hand.Lending? ==> hand.req.mode == GofileZip)
  }

  lemma OrderedParts(q: Queue, hand: Hand)
    requires Ordered(q, hand)
    ensures Distinct(q.started + q.mirror) && Distinct(q.mirror) && Distinct(q.chan) && Distinct(HandSeq(hand) + q.chan)
    ensures forall x, y :: x in q.started && y in q.mirror ==> x.id != y.id
    ensures forall x, y :: x in HandSeq(hand) && y in q.chan ==> x.id != y.id
    ensures forall x :: x in q.started || x in q.mirror ==> x in q.log && x !in q.cancelled
  {
    KeepElements(q.log, q.cancelled);
    DistinctParts(q.started, q.mirror);
    DistinctParts(HandSeq(hand), q.chan);
    assert forall x :: x in q.started || x in q.mirror ==> x in q.started + q.mirror;
  }

  /** The re-check under the lock leaves no room for drift: the channel's front is the candidate. */
  lemma NeverDrifts(s: Sys)
    requires Ordered(s.q, s.hand) && s.hand.Peeked?
    ensures !Drifted(s)
    ensures StillLendable(s) ==> s.q.chan[0] == s.hand.cand
  {
    if StillLendable(s) {
      assert s.q.mirror[0] == s.q.chan[0];
      OrderedParts(s.q, s.hand);
      assert s.q.chan[0] in s.q.mirror;
      SameIdSameRequest(s.q.log, s.q.chan[0], s.hand.cand);
    }
  }

  lemma SameIdSameRequest(log: seq<Request>, x: Request, y: Request)
    requires Distinct(log) && x in log && y in log && x.id == y.id
    ensures x == y
  {
    var i :| 0 <= i < |log| && log[i] == x;
    var j :| 0 <= j < |log| && log[j] == y;
    assert i == j;
  }

  lemma EnqueueKeepsOrdered(s: Sys, step: Step)
    requires Ordered(s.q, s.hand) && Enabled(s, step) && step.Enqueue?
    ensures Ordered(QueueAfter(s, step), s.hand)
  {
    if Accepted(s, step) {
      var r := step.r;
      KeepConcat(s.q.log, [r], s.q.cancelled);
      assert r !in s.q.cancelled;
      assert Keep([r], s.q.cancelled) == [r];
      assert s.q.started + (s.q.mirror + [r]) == (s.q.started + s.q.mirror) + [r];
      assert HandSeq(s.hand) + (s.q.chan + [r]) == (HandSeq(s.hand) + s.q.chan) + [r];
    }
  }

  lemma DropFront(r: Request, chan: seq<Request>)
    requires forall y :: y in chan ==> y.id != r.id
    ensures Keep([r] + chan, {r}) == chan
  {
    assert ([r] + chan)[1..] == chan;
    KeepElements(chan, {r});
  }

  /** The task in hand starts; the hand is then empty. */
  lemma StartedInOrder(q: Queue, hand: Hand, r: Request, next: Hand)
    requires Ordered(q, hand) && HandSeq(hand) == [r]
    requires HandSeq(next) == [] && !next.Peeked? && !next.Lending?
    ensures Ordered(q.(mirror := Keep(q.mirror, {r}), started := q.started + [r]), next)
  {
    OrderedParts(q, hand);
    assert r in HandSeq(hand);
    DropFront(r, q.chan);
    assert q.started + [r] + q.chan == q.started + q.mirror;
  }

  lemma StartKeepsOrdered(s: Sys, step: Step)
    requires Ordered(s.q, s.hand) && Enabled(s, step) && (step.StartHead? || step.StartBorrower?)
    ensures Ordered(QueueAfter(s, step), HandAfter(s, step))
  {
    StartedInOrder(s.q, s.hand, s.hand.req, HandAfter(s, step));
  }

  /** What is cancelled in the queue leaves the channel and the mirror alike, and nothing else moves. */
  lemma CancelledFromQueue(started: seq<Request>, hand: seq<Request>, chan: seq<Request>, gone: set<Request>)
    requires Distinct(started + (hand + chan)) && forall x :: x in gone ==> x in chan
    ensures Keep(hand + chan, gone) == hand + Keep(chan, gone)
    ensures Keep(started + (hand + chan), gone) == started + Keep(hand + chan, gone)
  {
    DistinctParts(started, hand + chan);
    DistinctParts(hand, chan);
    KeepConcat(started, hand + chan, gone);
    KeepConcat(hand, chan, gone);
    assert forall x :: x in gone ==> x in hand + chan;
    KeepElements(started, gone);
    KeepElements(hand, gone);
  }

  /** Cancelling keeps everything that stays in its order, and takes exactly gone out of the queue. */
  lemma CancelKeepsOrdered(q: Queue, hand: Hand, gone: set<Request>)
    requires Ordered(q, hand) && forall x :: x in gone ==> x in q.chan
    ensures Ordered(q.(chan := Keep(q.chan, gone), mirror := Keep(q.mirror, gone), cancelled := q.cancelled + gone), hand)
  {
    OrderedParts(q, hand);
    KeepTwice(q.log, q.cancelled, gone);
    CancelledFromQueue(q.started, HandSeq(hand), q.chan, gone);
    assert forall x :: x in q.chan ==> x in q.mirror;
  }

  lemma StepKeepsOrdered(s: Sys, step: Step)
    requires Ordered(s.q, s.hand) && Enabled(s, step)
    ensures Ordered(QueueAfter(s, step), HandAfter(s, step))
  {
    match step {
      case Enqueue(_, _) => EnqueueKeepsOrdered(s, step);
      case StartHead => StartKeepsOrdered(s, step);
      case StartBorrower => StartKeepsOrdered(s, step);
      case Lend => NeverDrifts(s);
      case Peek(_, _, _, _) => OrderedParts(s.q, s.hand);
      case CancelQueued(r) => CancelKeepsOrdered(s.q, s.hand, {r});
      case CancelAll =>
        var gone := set r | r in s.q.chan;
        CancelKeepsOrdered(s.q, s.hand, gone);
        KeepElements(s.q.chan, gone);
      case _ =>
    }
  }

  // ---- tables -------------------------------------------------------------

  function HeadOf(h: Hand): Option<Request> {
    match h
    case Waiting(x) => Some(x)
    case Peeked(x, _) => Some(x)
    case Lending(x, _) => Some(x)
    case _ => None
  }

  ghost predicate RunTabled(t: Tables, hand: Hand, x: Request)
    requires x in t.running
  {
    var run := t.running[x];
    && (run.done <==> x in t.uploading)
    && (run.done <==> x in t.closed)
    && (run.borrower <==> t.borrow == Some(x))
    && (run.borrower ==> x.mode == GofileZip)
    && (!run.borrower && !run.done ==> t.active == Some(x) && HeadOf(hand) == Some(x))
  }

  ghost predicate SlotsTabled(t: Tables, hand: Hand, started: seq<Request>) {
    && (forall x :: x in t.uploading ==> x in t.running)
    && (forall x :: x in t.closed ==> x in started)
    && (t.active.Some? ==> t.active.value in t.running && !t.running[t.active.value].borrower)
    && (t.headRip.Some? ==> t.headRip.value in t.running && !t.running[t.headRip.value].borrower)
    && (t.borrow.Some? ==> t.borrow.value in t.running)
    && (hand.Lending? ==> t.borrow == None)
  }

  ghost predicate Tabled(t: Tables, hand: Hand, started: seq<Request>) {
    && (forall x :: x in t.running ==> x in started && RunTabled(t, hand, x))
    && SlotsTabled(t, hand, started)
  }

  lemma StartKeepsTabled(s: Sys, step: Step)
    requires Tabled(s.t, s.hand, s.q.started) && Enabled(s, step) && (step.StartHead? || step.StartBorrower?)
    requires s.hand.req !in s.q.started && (s.hand.Lending? ==> s.hand.req.mode == GofileZip)
    ensures Tabled(TablesAfter(s, step), HandAfter(s, step), s.q.started + [s.hand.req])
  {
    var t' := TablesAfter(s, step);
    forall x | x in t'.running ensures x in s.q.started + [s.hand.req] && RunTabled(t', HandAfter(s, step), x) {
      if x != s.hand.req {
        assert RunTabled(s.t, s.hand, x);
      }
    }
  }

  lemma FinishKeepsTabled(s: Sys, step: Step)
    requires Tabled(s.t, s.hand, s.q.started) && Enabled(s, step) && step.Finish?
    ensures Tabled(TablesAfter(s, step), s.hand, s.q.started)
  {
    var t' := TablesAfter(s, step);
    assert RunTabled(s.t, s.hand, step.t);
    forall x | x in t'.running ensures x in s.q.started && RunTabled(t', s.hand, x) {
      assert RunTabled(s.t, s.hand, x);
    }
    assert s.t.borrow.Some? ==> RunTabled(s.t, s.hand, s.t.borrow.value);
  }

  lemma OtherKeepsTabled(s: Sys, step: Step)
    requires Tabled(s.t, s.hand, s.q.started) && Enabled(s, step)
    requires !step.Finish? && !step.StartHead? && !step.StartBorrower?
    ensures Tabled(TablesAfter(s, step), HandAfter(s, step), s.q.started)
  {
    var t', hand' := TablesAfter(s, step), HandAfter(s, step);
    if step.DownloadDone? {
      assert RunTabled(s.t, s.hand, step.t);
    }
    forall x | x in t'.running ensures x in s.q.started && RunTabled(t', hand', x) {
      assert RunTabled(s.t, s.hand, x);
    }
  }

  lemma StepKeepsTabled(s: Sys, step: Step)
    requires Ordered(s.q, s.hand) && Tabled(s.t, s.hand, s.q.started) && Enabled(s, step)
    ensures Tabled(TablesAfter(s, step), HandAfter(s, step), QueueAfter(s, step).started)
  {
    if step.StartHead? || step.StartBorrower? {
      OrderedParts(s.q, s.hand);
      assert s.q.mirror[0] == s.hand.req;
      StartKeepsTabled(s, step);
    } else if step.Finish? {
      FinishKeepsTabled(s, step);
    } else {
      OtherKeepsTabled(s, step);
    }
  }

  // ---- counts -------------------------------------------------------------

  /** The user's requests that are queued, in hand, downloading or uploading. */
  ghost function Live(mirror: seq<Request>, running: set<Request>, user: int): set<Request> {
    Of(mirror, user) + set r | r in running && r.user == user
  }

  ghost predicate CountedFor(count: map<int, nat>, mirror: seq<Request>, running: set<Request>, user: int) {
    user != 0 ==> Tasks(count, user) == |Live(mirror, running, user)|
  }

  function HowMany(xs: seq<Request>, user: int): nat {
    if xs == [] then 0 else (if xs[0].user == user then 1 else 0) + HowMany(xs[1..], user)
  }

  lemma {:induction false} LoweredAllCounts(count: map<int, nat>, gone: seq<Request>, user: int)
    requires user != 0
    ensures Tasks(LoweredAll(count, gone), user) ==
            if Tasks(count, user) >= HowMany(gone, user) then Tasks(count, user) - HowMany(gone, user) else 0
    decreases |gone|
  {
    if gone != [] {
      LoweredAllCounts(Lowered(count, gone[0].user), gone[1..], user);
    }
  }

  ghost function Of(xs: seq<Request>, user: int): set<Request> {
    set r | r in xs && r.user == user
  }

  lemma OfFront(x: Request, rest: seq<Request>, user: int)
    requires x !in rest
    ensures |Of([x] + rest, user)| == |Of(rest, user)| + if x.user == user then 1 else 0
  {
    if x.user == user {
      assert Of([x] + rest, user) == Of(rest, user) + {x};
    } else {
      assert Of([x] + rest, user) == Of(rest, user);
    }
  }

  lemma {:induction false} DistinctCount(xs: seq<Request>, user: int)
    requires Distinct(xs)
    ensures HowMany(xs, user) == |Of(xs, user)|
  {
    if xs == [] {
      assert Of(xs, user) == {};
    } else {
      assert xs == [xs[0]] + xs[1..];
      DistinctParts([xs[0]], xs[1..]);
      assert xs[0] in [xs[0]];
      DistinctCount(xs[1..], user);
      OfFront(xs[0], xs[1..], user);
    }
  }

  lemma LiveWithout(mirror: seq<Request>, running: set<Request>, gone: set<Request>, user: int)
    requires forall x :: x in gone ==> x in mirror && x !in running
    ensures Live(Keep(mirror, gone), running, user) == Live(mirror, running, user) - gone
  {
    KeepElements(mirror, gone);
  }

  lemma LiveSize(mirror: seq<Request>, running: set<Request>, gone: set<Request>, mine: set<Request>, user: int)
    requires forall x :: x in gone ==> x in mirror && x !in running
    requires forall x :: x in mine <==> x in gone && x.user == user
    ensures |Live(Keep(mirror, gone), running, user)| + |mine| == |Live(mirror, running, user)|
  {
    LiveWithout(mirror, running, gone, user);
    var live := Live(mirror, running, user);
    assert live - gone == live - mine;
    assert (live - mine) + mine == live;
  }

  lemma StartKeepsLive(mirror: seq<Request>, running: set<Request>, r: Request, user: int)
    requires r in mirror
    ensures Live(Keep(mirror, {r}), running + {r}, user) == Live(mirror, running, user)
  {
    KeepElements(mirror, {r});
  }

  lemma EnqueueAddsLive(mirror: seq<Request>, running: set<Request>, r: Request, user: int)
    requires r !in mirror && r !in running
    ensures |Live(mirror + [r], running, user)| == |Live(mirror, running, user)| + if r.user == user then 1 else 0
  {
    assert Live(mirror + [r], running, user) == Live(mirror, running, user) + if r.user == user then {r} else {};
  }

  lemma FinishRemovesLive(mirror: seq<Request>, running: set<Request>, r: Request, user: int)
    requires r !in mirror && r in running
    ensures |Live(mirror, running - {r}, user)| + (if r.user == user then 1 else 0) == |Live(mirror, running, user)|
  {
    assert Live(mirror, running - {r}, user) == Live(mirror, running, user) - {r};
    assert r in Live(mirror, running, user) <==> r.user == user;
  }

  ghost predicate Counted(s: Sys, user: int) {
    CountedFor(s.count, s.q.mirror, s.t.running.Keys, user)
  }

  /** What counting needs of the other invariants: nothing is queued twice, or queued and running. */
  ghost predicate Apart(s: Sys) {
    && Distinct(s.q.chan)
    && (forall x :: x in s.q.chan || x in HandSeq(s.hand) ==> x in s.q.mirror)
    && (forall x :: x in s.q.mirror || x in s.t.running.Keys ==> x in s.q.log)
    && (forall x :: x in s.q.mirror ==> x !in s.t.running.Keys)
  }

  lemma ItIsApart(s: Sys)
    requires Ordered(s.q, s.hand) && Tabled(s.t, s.hand, s.q.started)
    ensures Apart(s)
  {
    OrderedParts(s.q, s.hand);
  }

  lemma LoweredOne(count: map<int, nat>, u: int, user: int)
    requires user != 0
    ensures Tasks(Lowered(count, u), user) == if u == user && Tasks(count, user) > 0 then Tasks(count, user) - 1 else Tasks(count, user)
  {
  }

  lemma LoweredForOneLess(count: map<int, nat>, mirror: seq<Request>, running: set<Request>, r: Request, user: int)
    requires CountedFor(count, mirror, running, user) && r in mirror && r !in running
    ensures CountedFor(Lowered(count, r.user), Keep(mirror, {r}), running, user)
  {
    var mine: set<Request> := if r.user == user then {r} else {};
    LiveSize(mirror, running, {r}, mine, user);
    assert |mine| == if r.user == user then 1 else 0;
    if user != 0 {
      LoweredOne(count, r.user, user);
    }
  }

  lemma CancelQueuedKeepsCounted(s: Sys, r: Request, user: int)
    requires Apart(s) && Counted(s, user) && r in s.q.chan
    ensures Counted(Apply(s, CancelQueued(r)), user)
  {
    assert r in s.q.mirror;
    LoweredForOneLess(s.count, s.q.mirror, s.t.running.Keys, r, user);
  }

  lemma StartKeepsCounted(s: Sys, step: Step, user: int)
    requires Apart(s) && Counted(s, user) && Enabled(s, step) && (step.StartHead? || step.StartBorrower?)
    ensures Counted(Apply(s, step), user)
  {
    assert s.hand.req in HandSeq(s.hand);
    StartKeepsLive(s.q.mirror, s.t.running.Keys, s.hand.req, user);
    assert TablesAfter(s, step).running.Keys == s.t.running.Keys + {s.hand.req};
  }

  lemma FinishKeepsCounted(s: Sys, t: Request, user: int)
    requires Apart(s) && Counted(s, user) && Enabled(s, Finish(t))
    ensures Counted(Apply(s, Finish(t)), user)
  {
    assert t in s.t.running.Keys;
    FinishRemovesLive(s.q.mirror, s.t.running.Keys, t, user);
    assert TablesAfter(s, Finish(t)).running.Keys == s.t.running.Keys - {t};
    if user != 0 {
      LoweredOne(s.count, t.user, user);
    }
  }

  lemma CancelAllKeepsCounted(s: Sys, user: int)
    requires Apart(s) && Counted(s, user)
    ensures Counted(Apply(s, CancelAll), user)
  {
    LiveSize(s.q.mirror, s.t.running.Keys, (set r | r in s.q.chan), Of(s.q.chan, user), user);
    DistinctCount(s.q.chan, user);
    if user != 0 {
      LoweredAllCounts(s.count, s.q.chan, user);
    }
  }

  lemma EnqueueKeepsCounted(s: Sys, r: Request, cap: nat, user: int)
    requires Apart(s) && Counted(s, user) && Enabled(s, Enqueue(r, cap))
    ensures Counted(Apply(s, Enqueue(r, cap)), user)
  {
    if Accepted(s, Enqueue(r, cap)) {
      RaisedForOneMore(s.count, s.q.mirror, s.t.running.Keys, r, user);
    }
  }

  lemma RaisedForOneMore(count: map<int, nat>, mirror: seq<Request>, running: set<Request>, r: Request, user: int)
    requires CountedFor(count, mirror, running, user) && r !in mirror && r !in running
    ensures CountedFor(Raised(count, r.user), mirror + [r], running, user)
  {
    EnqueueAddsLive(mirror, running, r, user);
  }

  /** The steps that neither make nor end a request. */
  lemma QuietKeepsCounted(s: Sys, step: Step, user: int)
    requires Counted(s, user) && Enabled(s, step)
    requires step.Receive? || step.DownloadDone? || step.HeadDone? || step.Peek? || step.PeekDeclined? || step.Lend?
    ensures Counted(Apply(s, step), user)
  {
    assert TablesAfter(s, step).running.Keys == s.t.running.Keys;
    assert QueueAfter(s, step).mirror == s.q.mirror && CountAfter(s, step) == s.count;
  }

  lemma StepKeepsCounted(s: Sys, step: Step, user: int)
    requires Apart(s) && Counted(s, user) && Enabled(s, step)
    ensures Counted(Apply(s, step), user)
  {
    match step {
      case CancelQueued(r) => CancelQueuedKeepsCounted(s, r, user);
      case CancelAll => CancelAllKeepsCounted(s, user);
      case StartHead => StartKeepsCounted(s, step, user);
      case StartBorrower => StartKeepsCounted(s, step, user);
      case Finish(t) => FinishKeepsCounted(s, t, user);
      case Enqueue(r, cap) => EnqueueKeepsCounted(s, r, cap, user);
      case _ => QuietKeepsCounted(s, step, user);
    }
  }

  // ---- every run ----------------------------------------------------------

  ghost predicate Inv(s: Sys) {
    && Ordered(s.q, s.hand)
    && Tabled(s.t, s.hand, s.q.started)
    && forall user :: Counted(s, user)
  }

  lemma StepKeepsInv(s: Sys, step: Step)
    requires Inv(s) && Enabled(s, step)
    ensures Inv(Apply(s, step))
  {
    StepKeepsOrdered(s, step);
    StepKeepsTabled(s, step);
    ItIsApart(s);
    forall user ensures Counted(Apply(s, step), user) {
      StepKeepsCounted(s, step, user);
    }
  }

  ghost predicate Legal(s: Sys, steps: seq<Step>)
    decreases |steps|
  {
    steps == [] || (Enabled(s, steps[0]) && Legal(Apply(s, steps[0]), steps[1..]))
  }

  ghost function Exec(s: Sys, steps: seq<Step>): Sys
    requires Legal(s, steps)
    decreases |steps|
  {
    if steps == [] then s else Exec(Apply(s, steps[0]), steps[1..])
  }

  lemma {:induction false} RunKeepsInv(s: Sys, steps: seq<Step>)
    requires Inv(s) && Legal(s, steps)
    ensures Inv(Exec(s, steps))
    decreases |steps|
  {
    if steps != [] {
      StepKeepsInv(s, steps[0]);
      RunKeepsInv(Apply(s, steps[0]), steps[1..]);
    }
  }

  lemma StartInv()
    ensures Inv(START)
  {
    forall user ensures Counted(START, user) {
      assert Live(START.q.mirror, START.t.running.Keys, user) == {};
    }
  }

  /**
   Order, in every reachable state: the mirror is the task in hand followed by the channel, and
   tasks have started, as head or borrower, exactly in the order they were enqueued.
   */
  lemma QueueOrder(steps: seq<Step>)
    requires Legal(START, steps)
    ensures var s := Exec(START, steps);
            && s.q.mirror == HandSeq(s.hand) + s.q.chan
            && s.q.started + HandSeq(s.hand) + s.q.chan == Keep(s.q.log, s.q.cancelled)
            && Distinct(s.q.started + s.q.mirror)
            && (s.hand.Peeked? ==> !Drifted(s))
  {
    StartInv();
    RunKeepsInv(START, steps);
    var s := Exec(START, steps);
    OrderedParts(s.q, s.hand);
    assert s.q.started + (HandSeq(s.hand) + s.q.chan) == s.q.started + HandSeq(s.hand) + s.q.chan;
    if s.hand.Peeked? {
      NeverDrifts(s);
    }
  }

  predicate Downloading(s: Sys, x: Request) {
    x in s.t.running && !s.t.running[x].done
  }

  /**
   Safety, in every reachable state: one head downloads at a time, and one borrower runs at a
   time; /stop finds every running rip in some table; no table names a rip that has ended.
   */
  lemma SchedulerSafety(steps: seq<Step>)
    requires Legal(START, steps)
    ensures var s := Exec(START, steps);
            && (forall x, y :: Downloading(s, x) && Downloading(s, y) && !s.t.running[x].borrower && !s.t.running[y].borrower ==> x == y)
            && (forall x, y :: x in s.t.running && y in s.t.running && s.t.running[x].borrower && s.t.running[y].borrower ==> x == y)
            && (forall x :: x in s.t.running <==> s.t.active == Some(x) || s.t.borrow == Some(x) || x in s.t.uploading)
            && (s.t.headRip.Some? ==> s.t.headRip.value in s.t.running)
            && (forall x :: x in s.t.running && s.t.running[x].borrower ==> x.mode == GofileZip)
  {
    StartInv();
    RunKeepsInv(START, steps);
    var s := Exec(START, steps);
    forall x | x in s.t.running ensures RunTabled(s.t, s.hand, x) {}
  }

  /** A filled borrow slot keeps its task until that task's own last step. */
  lemma BorrowSlotIsSticky(s: Sys, step: Step)
    requires Inv(s) && Enabled(s, step) && s.t.borrow.Some?
    ensures Apply(s, step).t.borrow == if step == Finish(s.t.borrow.value) then None else s.t.borrow
  {
    if step.Finish? {
      assert RunTabled(s.t, s.hand, step.t);
      assert RunTabled(s.t, s.hand, s.t.borrow.value);
    }
  }

  /** The next head starts only once the previous one has finished downloading. */
  lemma HeadStartsAfterHead(s: Sys, step: Step)
    requires Inv(s) && Enabled(s, step) && step.StartHead?
    ensures forall x :: Downloading(s, x) ==> s.t.running[x].borrower
  {
    forall x | Downloading(s, x) ensures s.t.running[x].borrower {
      assert RunTabled(s.t, s.hand, x);
    }
  }

  /**
   The count of a user is the number of their live requests, so a decrement always finds a
   positive count: the guards before the decrements are never false.
   */
  lemma PerUserCount(steps: seq<Step>, user: int)
    requires Legal(START, steps) && user != 0
    ensures var s := Exec(START, steps);
            && Tasks(s.count, user) == |Live(s.q.mirror, s.t.running.Keys, user)|
            && (forall x :: (x in s.t.running || x in s.q.mirror) && x.user == user ==> Tasks(s.count, user) > 0)
  {
    StartInv();
    RunKeepsInv(START, steps);
    var s := Exec(START, steps);
    assert Counted(s, user);
    forall x | (x in s.t.running || x in s.q.mirror) && x.user == user ensures Tasks(s.count, user) > 0 {
      assert x in Live(s.q.mirror, s.t.running.Keys, user);
    }
  }
}
