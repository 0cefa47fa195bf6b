/**
 The cancel rotation of bot/telegram_bot.go against a scheduler that receives without the lock. A turn pops
 every queued task once and pushes it back or drops it; the range over the channel may take a task in the
 middle of it. Nothing is ever lost, but order is kept, and lending meets the task it expects, only under a
 condition on when the receive comes.
 */
module CancelRotation {
  import opened Scheduler

  /** dropped are the cancelled tasks; holding is what the rotation has popped and not pushed yet. */
  datatype Ring = Ring(
    chan: seq<Request>,
    hand: seq<Request>,
    mirror: seq<Request>,
    turning: bool,
    left: nat,              // pops the turn has still to make
    holding: seq<Request>,
    dropped: seq<Request>,
    started: seq<Request>,
    log: seq<Request>)

  datatype Move =
    | Send(r: Request)          // an enqueue, under the lock
    | StartTurn                 // a cancel takes the lock and reads the length
    | Pop
    | PopNothing
    | PushBack
    | Discard
    | EndTurn
    | ReceiveUnlocked           // the scheduler goroutine, at any time
    | Lend                      // the same goroutine, under the lock: the front of the mirror is the candidate
    | StartTask                 // needs the lock

  const EMPTY := Ring([], [], [], false, 0, [], [], [], [])

  function SetOf(xs: seq<Request>): set<Request> {
    set x | x in xs
  }

  predicate Possible(g: Ring, m: Move, capacity: nat) {
    match m
    case Send(r) => !g.turning && |g.chan| < capacity && forall x :: x in g.log ==> x.id != r.id
    case StartTurn => !g.turning
    case Pop => g.turning && g.holding == [] && g.left > 0 && g.chan != []
    case PopNothing => g.turning && g.holding == [] && g.left > 0 && g.chan == []
    case PushBack => g.holding != []
    case Discard => g.holding != []
    case EndTurn => g.turning && g.holding == [] && g.left == 0
    case ReceiveUnlocked => g.hand == [] && g.chan != []
    case Lend => !g.turning && g.hand == [] && g.mirror != [] && g.chan != []
    case StartTask => !g.turning && g.hand != []
  }

  /** The branch of tryLendToBorrower in which the channel gives another task than the mirror promised. */
  predicate Drifts(g: Ring) {
    !g.turning && g.hand == [] && g.mirror != [] && g.chan != [] && g.chan[0].id != g.mirror[0].id
  }

  /** Where the tasks go. */
  function Moved(g: Ring, m: Move, capacity: nat): Ring
    requires Possible(g, m, capacity)
  {
    match m
    case Send(r) => g.(chan := g.chan + [r], mirror := g.mirror + [r], log := g.log + [r])
    case StartTurn => g.(turning := true, left := |g.chan|)
    case Pop => g.(chan := g.chan[1..], holding := [g.chan[0]], left := g.left - 1)
    case PopNothing => g.(turning := false, left := 0)
    case PushBack => g.(chan := g.chan + g.holding, holding := [])
    case Discard => g.(dropped := g.dropped + g.holding, mirror := Keep(g.mirror, SetOf(g.holding)), holding := [])
    case EndTurn => g.(turning := false)
    case ReceiveUnlocked => g.(chan := g.chan[1..], hand := [g.chan[0]])
    case Lend => if Drifts(g) then g.(chan := g.chan[1..] + [g.chan[0]]) else g.(chan := g.chan[1..], hand := [g.chan[0]])
    case StartTask => g.(started := g.started + g.hand, mirror := Keep(g.mirror, SetOf(g.hand)), hand := [])
  }

  ghost predicate Playable(g: Ring, ms: seq<Move>, capacity: nat)
    decreases |ms|
  {
    ms == [] || (Possible(g, ms[0], capacity) && Playable(Moved(g, ms[0], capacity), ms[1..], capacity))
  }

  ghost function Played(g: Ring, ms: seq<Move>, capacity: nat): Ring
    requires Playable(g, ms, capacity)
    decreases |ms|
  {
    if ms == [] then g else Played(Moved(g, ms[0], capacity), ms[1..], capacity)
  }

  // ---- nothing is lost ----------------------------------------------------

  function Times(xs: seq<Request>, r: Request): nat {
    if xs == [] then 0 else (if xs[0] == r then 1 else 0) + Times(xs[1..], r)
  }

  lemma {:induction false} TimesConcat(a: seq<Request>, b: seq<Request>, r: Request)
    ensures Times(a + b, r) == Times(a, r) + Times(b, r)
  {
    if a == [] {
      assert a + b == b;
    } else {
      TimesConcat(a[1..], b, r);
      assert (a + b)[1..] == a[1..] + b;
    }
  }

  lemma TimesFront(xs: seq<Request>, r: Request)
    requires xs != []
    ensures Times([xs[0]], r) + Times(xs[1..], r) == Times(xs, r)
  {
    assert Times([xs[0]], r) == if xs[0] == r then 1 else 0;
  }

  /** In how many places a task is. */
  function Places(g: Ring, r: Request): nat {
    Times(g.chan, r) + Times(g.hand, r) + Times(g.holding, r) + Times(g.dropped, r) + Times(g.started, r)
  }

  /** Nothing lost, nothing twice; and the slot a rotation popped stays free until it pushes back. */
  ghost predicate Whole(g: Ring, capacity: nat) {
    && (forall r :: Places(g, r) == Times(g.log, r))
    && |g.chan| + |g.holding| <= capacity
    && |g.holding| <= 1 && (g.holding != [] ==> g.turning)
  }

  lemma MoveKeepsPlaces(g: Ring, m: Move, capacity: nat, r: Request)
    requires Possible(g, m, capacity) && |g.holding| <= 1
    ensures Places(Moved(g, m, capacity), r) + Times(g.log, r) == Places(g, r) + Times(Moved(g, m, capacity).log, r)
  {
    match m {
      case Send(x) =>
        TimesConcat(g.chan, [x], r);
        TimesConcat(g.log, [x], r);
      case PushBack => TimesConcat(g.chan, g.holding, r);
      case Discard => TimesConcat(g.dropped, g.holding, r);
      case StartTask => TimesConcat(g.started, g.hand, r);
      case Pop => TimesFront(g.chan, r);
      case ReceiveUnlocked => TimesFront(g.chan, r);
      case Lend =>
        TimesFront(g.chan, r);
        TimesConcat(g.chan[1..], [g.chan[0]], r);
      case _ =>
    }
  }

  lemma MoveKeepsWhole(g: Ring, m: Move, capacity: nat)
    requires Whole(g, capacity) && Possible(g, m, capacity)
    ensures Whole(Moved(g, m, capacity), capacity)
  {
    forall r ensures Places(Moved(g, m, capacity), r) == Times(Moved(g, m, capacity).log, r) {
      MoveKeepsPlaces(g, m, capacity, r);
    }
  }

  lemma {:induction false} PlayKeepsWhole(g: Ring, ms: seq<Move>, capacity: nat)
    requires Whole(g, capacity) && Playable(g, ms, capacity)
    ensures Whole(Played(g, ms, capacity), capacity)
    decreases |ms|
  {
    if ms != [] {
      MoveKeepsWhole(g, ms[0], capacity);
      PlayKeepsWhole(Moved(g, ms[0], capacity), ms[1..], capacity);
    }
  }

  /**
   In every interleaving with the unlocked receiver each enqueued task is in exactly one place, and
   the send that puts a task back, made while the lock is held, always finds a free slot.
   */
  lemma RotationConserves(ms: seq<Move>, capacity: nat)
    requires Playable(EMPTY, ms, capacity)
    ensures forall r :: Places(Played(EMPTY, ms, capacity), r) == Times(Played(EMPTY, ms, capacity).log, r)
    ensures Played(EMPTY, ms, capacity).holding != [] ==> |Played(EMPTY, ms, capacity).chan| < capacity
  {
    PlayKeepsWhole(EMPTY, ms, capacity);
  }

  // ---- the mirror, in every run -------------------------------------------

  /** The mirror is what was enqueued, in that order, without what started and what was dropped. */
  ghost predicate Mirrored(g: Ring) {
    && g.mirror == Keep(g.log, SetOf(g.started) + SetOf(g.dropped))
    && (forall x :: x in g.started || x in g.dropped || x in g.hand || x in g.holding || x in g.chan ==> x in g.log)
  }

  lemma SetOfConcat(a: seq<Request>, b: seq<Request>)
    ensures SetOf(a + b) == SetOf(a) + SetOf(b)
  {
  }

  lemma KeepFresh(log: seq<Request>, r: Request, gone: set<Request>)
    requires r !in gone
    ensures Keep(log + [r], gone) == Keep(log, gone) + [r]
  {
    KeepConcat(log, [r], gone);
    assert [r][1..] == [] && Keep([r], gone) == [r];
  }

  /** Started and dropped tasks leave the mirror the same way. */
  lemma MirrorLoses(g: Ring, more: seq<Request>)
    requires Mirrored(g)
    ensures Keep(g.mirror, SetOf(more)) == Keep(g.log, SetOf(g.started) + SetOf(g.dropped + more))
    ensures Keep(g.mirror, SetOf(more)) == Keep(g.log, SetOf(g.started + more) + SetOf(g.dropped))
  {
    var gone := SetOf(g.started) + SetOf(g.dropped);
    KeepTwice(g.log, gone, SetOf(more));
    SetOfConcat(g.dropped, more);
    SetOfConcat(g.started, more);
    assert SetOf(g.started) + (SetOf(g.dropped) + SetOf(more)) == gone + SetOf(more);
    assert SetOf(g.started) + SetOf(more) + SetOf(g.dropped) == gone + SetOf(more);
  }

  lemma MoveKeepsMirrored(g: Ring, m: Move, capacity: nat)
    requires Mirrored(g) && Possible(g, m, capacity)
    ensures Mirrored(Moved(g, m, capacity))
  {
    match m {
      case Send(r) => KeepFresh(g.log, r, SetOf(g.started) + SetOf(g.dropped));
      case Discard => MirrorLoses(g, g.holding);
      case StartTask => MirrorLoses(g, g.hand);
      case _ =>
    }
  }

  // ---- order, when no receive comes before the last pop -------------------

  /** The tasks of the ring in the order in which they were popped and pushed: what went round, what is held, what is to come. */
  function Rolled(chan: seq<Request>, left: nat, holding: seq<Request>): seq<Request>
    requires left <= |chan|
  {
    chan[left..] + holding + chan[..left]
  }

  ghost predicate InOrder(g: Ring) {
    && Distinct(g.log) && (forall x :: x in g.dropped ==> x in g.log)
    && g.left <= |g.chan| && |g.holding| <= 1 && (!g.turning ==> g.left == 0 && g.holding == [])
    && g.started + g.hand + Rolled(g.chan, g.left, g.holding) == Keep(g.log, SetOf(g.dropped))
  }

  /** A receive in mid-turn comes when nothing is left to pop. */
  predicate Timely(g: Ring, m: Move) {
    m.ReceiveUnlocked? ==> g.left == 0
  }

  lemma RolledPop(chan: seq<Request>, left: nat)
    requires 0 < left <= |chan|
    ensures Rolled(chan[1..], left - 1, [chan[0]]) == Rolled(chan, left, [])
  {
    assert chan[1..][left - 1..] == chan[left..] && chan[1..][..left - 1] == chan[1..left];
    assert [chan[0]] + chan[1..left] == chan[..left];
  }

  lemma RolledPush(chan: seq<Request>, left: nat, holding: seq<Request>)
    requires left <= |chan|
    ensures Rolled(chan + holding, left, []) == Rolled(chan, left, holding)
  {
    assert (chan + holding)[left..] == chan[left..] + holding && (chan + holding)[..left] == chan[..left];
  }

  lemma RolledEnds(chan: seq<Request>, holding: seq<Request>)
    ensures Rolled(chan, |chan|, []) == chan && Rolled(chan, 0, holding) == chan + holding
  {
  }

  /** Taking one task out of the middle of a sequence without repetition. */
  lemma KeepMiddle(a: seq<Request>, x: Request, b: seq<Request>)
    requires Distinct(a + [x] + b)
    ensures Keep(a + [x] + b, {x}) == a + b
  {
    DistinctParts(a + [x], b);
    DistinctParts(a, [x]);
    assert x in [x] && x in a + [x];
    KeepConcat(a + [x], b, {x});
    KeepConcat(a, [x], {x});
    KeepElements(a, {x});
    KeepElements(b, {x});
    KeepElements([x], {x});
  }

  lemma SendInOrder(g: Ring, r: Request, capacity: nat)
    requires InOrder(g) && Possible(g, Send(r), capacity)
    ensures InOrder(Moved(g, Send(r), capacity))
  {
    KeepFresh(g.log, r, SetOf(g.dropped));
    RolledEnds(g.chan, []);
    RolledEnds(g.chan + [r], []);
    assert g.started + g.hand + (g.chan + [r]) == g.started + g.hand + g.chan + [r];
  }

  /** A task dropped from the middle of the line leaves it without that task. */
  lemma DroppedFromLine(log: seq<Request>, dropped: seq<Request>, front: seq<Request>, x: Request, back: seq<Request>)
    requires Distinct(log) && front + [x] + back == Keep(log, SetOf(dropped))
    ensures front + back == Keep(log, SetOf(dropped + [x]))
  {
    KeepElements(log, SetOf(dropped));
    KeepMiddle(front, x, back);
    KeepTwice(log, SetOf(dropped), {x});
    SetOfConcat(dropped, [x]);
    assert SetOf([x]) == {x};
  }

  lemma DiscardInOrder(g: Ring, capacity: nat)
    requires InOrder(g) && Possible(g, Discard, capacity) && g.holding[0] in g.log
    ensures InOrder(Moved(g, Discard, capacity))
  {
    var x := g.holding[0];
    var front, back := g.started + g.hand + g.chan[g.left..], g.chan[..g.left];
    assert g.holding == [x];
    assert g.started + g.hand + Rolled(g.chan, g.left, g.holding) == front + [x] + back;
    DroppedFromLine(g.log, g.dropped, front, x, back);
    assert g.started + g.hand + Rolled(g.chan, g.left, []) == front + back;
  }

  /** A task moves from the front of the channel to the hand: nothing else of the line changes. */
  lemma FrontToHand(started: seq<Request>, chan: seq<Request>, holding: seq<Request>)
    requires chan != []
    ensures started + [chan[0]] + Rolled(chan[1..], 0, holding) == started + [] + Rolled(chan, 0, holding)
  {
    RolledEnds(chan, holding);
    RolledEnds(chan[1..], holding);
    assert chan == [chan[0]] + chan[1..];
  }

  lemma HandToStarted(started: seq<Request>, hand: seq<Request>, rest: seq<Request>)
    ensures (started + hand) + [] + rest == started + hand + rest
  {
  }

  /** What is enqueued and neither started nor dropped is what waits. */
  lemma WaitingIsKept(log: seq<Request>, dropped: set<Request>, started: seq<Request>, waiting: seq<Request>)
    requires Distinct(log) && started + waiting == Keep(log, dropped)
    ensures Keep(log, SetOf(started) + dropped) == waiting
  {
    KeepElements(log, dropped);
    DistinctParts(started, waiting);
    KeepTwice(log, dropped, SetOf(started));
    assert dropped + SetOf(started) == SetOf(started) + dropped;
    KeepConcat(started, waiting, SetOf(started));
    KeepElements(started, SetOf(started));
    KeepElements(waiting, SetOf(started));
  }

  /** In order, and outside a turn, the mirror is the hand followed by the channel; so the front is what lending expects. */
  lemma NoDriftInOrder(g: Ring)
    requires InOrder(g) && Mirrored(g) && !g.turning
    ensures g.mirror == g.hand + g.chan && !Drifts(g)
  {
    OutsideTurn(g);
    WaitingIsKept(g.log, SetOf(g.dropped), g.started, g.hand + g.chan);
    assert g.hand == [] ==> g.mirror == g.chan;
  }

  lemma OutsideTurn(g: Ring)
    requires InOrder(g) && !g.turning
    ensures g.started + (g.hand + g.chan) == Keep(g.log, SetOf(g.dropped))
  {
    RolledEnds(g.chan, []);
    assert g.chan + [] == g.chan;
    assert g.started + g.hand + g.chan == g.started + (g.hand + g.chan);
  }

  lemma MoveKeepsInOrder(g: Ring, m: Move, capacity: nat)
    requires InOrder(g) && Mirrored(g) && Possible(g, m, capacity) && Timely(g, m)
    ensures InOrder(Moved(g, m, capacity))
  {
    match m {
      case Send(r) => SendInOrder(g, r, capacity);
      case StartTurn => RolledEnds(g.chan, []);
      case Pop => RolledPop(g.chan, g.left);
      case PopNothing =>
      case PushBack => RolledPush(g.chan, g.left, g.holding);
      case Discard => DiscardInOrder(g, capacity);
      case EndTurn =>
      case ReceiveUnlocked => FrontToHand(g.started, g.chan, g.holding);
      case Lend =>
        NoDriftInOrder(g);
        FrontToHand(g.started, g.chan, g.holding);
      case StartTask => HandToStarted(g.started, g.hand, Rolled(g.chan, g.left, g.holding));
    }
  }

  ghost predicate AllTimely(g: Ring, ms: seq<Move>, capacity: nat)
    requires Playable(g, ms, capacity)
    decreases |ms|
  {
    ms == [] || (Timely(g, ms[0]) && AllTimely(Moved(g, ms[0], capacity), ms[1..], capacity))
  }

  lemma {:induction false} PlayKeepsInOrder(g: Ring, ms: seq<Move>, capacity: nat)
    requires InOrder(g) && Mirrored(g) && Playable(g, ms, capacity) && AllTimely(g, ms, capacity)
    ensures InOrder(Played(g, ms, capacity)) && Mirrored(Played(g, ms, capacity))
    decreases |ms|
  {
    if ms != [] {
      MoveKeepsInOrder(g, ms[0], capacity);
      MoveKeepsMirrored(g, ms[0], capacity);
      PlayKeepsInOrder(Moved(g, ms[0], capacity), ms[1..], capacity);
    }
  }

  /**
   Every run in which no receive comes before the last pop of a turn: tasks start in the order they were
   enqueued, without the dropped ones, and the drift branch is not reached.
   */
  lemma TimelyRunsKeepOrder(ms: seq<Move>, capacity: nat)
    requires Playable(EMPTY, ms, capacity) && AllTimely(EMPTY, ms, capacity)
    ensures var g := Played(EMPTY, ms, capacity);
            && g.left <= |g.chan|
            && g.started + g.hand + Rolled(g.chan, g.left, g.holding) == Keep(g.log, SetOf(g.dropped))
            && (!g.turning ==> g.started + g.hand + g.chan == Keep(g.log, SetOf(g.dropped)) && g.mirror == g.hand + g.chan)
            && !Drifts(g)
  {
    assert SetOf([]) == {} && Rolled([], 0, []) == [];
    PlayKeepsInOrder(EMPTY, ms, capacity);
    var g := Played(EMPTY, ms, capacity);
    if !g.turning {
      NoDriftInOrder(g);
      RolledEnds(g.chan, []);
    }
  }

  // ---- one receive in a turn that drops nothing: exactly when ------------

  /** The moves of a turn that pops and pushes back. */
  predicate GoesRound(ms: seq<Move>) {
    forall i :: 0 <= i < |ms| ==> ms[i].Pop? || ms[i].PushBack?
  }

  predicate SameElsewhere(g: Ring, h: Ring) {
    g.hand == h.hand && g.mirror == h.mirror && g.dropped == h.dropped && g.started == h.started && g.log == h.log
  }

  /** Before the receive: the line is w, and what went round or is held is what was popped. */
  ghost predicate Before(g: Ring, w: seq<Request>) {
    && g.turning && g.left <= |g.chan| && |g.holding| <= 1
    && Rolled(g.chan, g.left, g.holding) == w
  }

  lemma {:induction false} RoundsKeepBefore(g: Ring, ms: seq<Move>, capacity: nat, w: seq<Request>)
    requires Before(g, w) && Playable(g, ms, capacity) && GoesRound(ms)
    ensures var h := Played(g, ms, capacity);
            Before(h, w) && SameElsewhere(g, h) && h.left <= g.left && (ms != [] && ms[0].Pop? ==> h.left < g.left)
    decreases |ms|
  {
    if ms != [] {
      if ms[0].Pop? {
        RolledPop(g.chan, g.left);
      } else {
        RolledPush(g.chan, g.left, g.holding);
      }
      RoundsKeepBefore(Moved(g, ms[0], capacity), ms[1..], capacity, w);
    }
  }

  function Rotated(w: seq<Request>): seq<Request> {
    if w == [] then [] else w[1..] + [w[0]]
  }

  /** After a receive that came too early: the turn makes one pop more than there are tasks left to pop. */
  ghost predicate Late(g: Ring, w: seq<Request>) {
    && g.turning && |g.holding| <= 1
    && if g.left > 0 then g.left - 1 <= |g.chan| && Rolled(g.chan, g.left - 1, g.holding) == w
       else w != [] && g.chan + g.holding == Rotated(w)
  }

  lemma LateMove(g: Ring, m: Move, capacity: nat, w: seq<Request>)
    requires Late(g, w) && Possible(g, m, capacity) && (m.Pop? || m.PushBack?)
    ensures Late(Moved(g, m, capacity), w) && SameElsewhere(g, Moved(g, m, capacity))
  {
    if m.PushBack? {
      if g.left > 0 {
        RolledPush(g.chan, g.left - 1, g.holding);
      }
    } else if g.left > 1 {
      RolledPop(g.chan, g.left - 1);
    } else {
      RolledEnds(g.chan, []);
    }
  }

  lemma {:induction false} RoundsKeepLate(g: Ring, ms: seq<Move>, capacity: nat, w: seq<Request>)
    requires Late(g, w) && Playable(g, ms, capacity) && GoesRound(ms)
    ensures Late(Played(g, ms, capacity), w) && SameElsewhere(g, Played(g, ms, capacity))
    decreases |ms|
  {
    if ms != [] {
      LateMove(g, ms[0], capacity, w);
      RoundsKeepLate(Moved(g, ms[0], capacity), ms[1..], capacity, w);
    }
  }

  /** However the turn ends, what is left has been rotated by one. */
  lemma LateEnd(g: Ring, end: Move, capacity: nat, w: seq<Request>)
    requires Late(g, w) && Possible(g, end, capacity) && (end.EndTurn? || end.PopNothing?)
    ensures var h := Moved(g, end, capacity); h.chan == Rotated(w) && !h.turning && h.left == 0 && h.holding == [] && SameElsewhere(g, h)
  {
    if end.PopNothing? {
      RolledEnds(g.chan, []);
    }
  }

  /** A sequence without repetition is its own rotation only if it has at most one element. */
  lemma RotatedSame(b: seq<Request>, x: Request, u: seq<Request>)
    requires Distinct(b + [x] + u)
    ensures [x] + Rotated(b + u) == b + [x] + u <==> b == [] && |u| <= 1
  {
    var line := b + [x] + u;
    if b != [] {
      assert line[0] == b[0] && line[|b|] == x;
    } else if |u| > 1 {
      assert line[1] == u[0] && line[2] == u[1];
      assert ([x] + Rotated(b + u))[1] == u[1];
    } else if |u| == 1 {
      assert b + u == u && u[1..] == [] && Rotated(u) == u;
    }
  }

  /** The receive splits the line: what went round, the task taken, what is still to pop. */
  lemma ReceiveSplits(g: Ring, capacity: nat, w: seq<Request>)
    requires Before(g, w) && Possible(g, ReceiveUnlocked, capacity) && g.left > 0
    ensures var b, u := g.chan[g.left..] + g.holding, g.chan[1..g.left];
            w == b + [g.chan[0]] + u && Late(Moved(g, ReceiveUnlocked, capacity), b + u)
  {
    var rest := g.chan[1..];
    assert rest[g.left - 1..] == g.chan[g.left..] && rest[..g.left - 1] == g.chan[1..g.left];
    assert g.chan[..g.left] == [g.chan[0]] + g.chan[1..g.left];
  }

  /** The line with its middle taken out first and the rest rotated is the line only if nothing went round and at most one is left. */
  lemma RotatedLine(log: seq<Request>, dropped: set<Request>, started: seq<Request>, b: seq<Request>, x: Request, u: seq<Request>)
    requires Distinct(log) && started + (b + [x] + u) == Keep(log, dropped)
    ensures started + ([x] + Rotated(b + u)) == Keep(log, dropped) <==> b == [] && |u| <= 1
  {
    KeepElements(log, dropped);
    DistinctParts(started, b + [x] + u);
    RotatedSame(b, x, u);
    SamePrefix(started, [x] + Rotated(b + u), b + [x] + u);
  }

  /** The rest of a turn after an early receive: the task taken is in hand, and what is left has been rotated. */
  lemma EarlyReceiveEnds(g: Ring, post: seq<Move>, end: Move, capacity: nat, w: seq<Request>)
    requires Before(g, w) && Possible(g, ReceiveUnlocked, capacity) && g.left > 0
    requires GoesRound(post) && (end.EndTurn? || end.PopNothing?)
    requires var g1 := Moved(g, ReceiveUnlocked, capacity);
             Playable(g1, post, capacity) && Possible(Played(g1, post, capacity), end, capacity)
    ensures var h := Moved(Played(Moved(g, ReceiveUnlocked, capacity), post, capacity), end, capacity);
            && h.started == g.started && h.dropped == g.dropped && h.log == g.log && h.hand == [g.chan[0]]
            && !h.turning && h.left == 0 && h.holding == []
            && h.chan == Rotated(g.chan[g.left..] + g.holding + g.chan[1..g.left])
  {
    var g1 := Moved(g, ReceiveUnlocked, capacity);
    var v := g.chan[g.left..] + g.holding + g.chan[1..g.left];
    ReceiveSplits(g, capacity, w);
    RoundsKeepLate(g1, post, capacity, v);
    LateEnd(Played(g1, post, capacity), end, capacity, v);
  }

  /** Whether the turn then ends in order. */
  lemma EarlyReceiveIff(g: Ring, post: seq<Move>, end: Move, capacity: nat, w: seq<Request>)
    requires Before(g, w) && Possible(g, ReceiveUnlocked, capacity) && g.left > 0
    requires Distinct(g.log) && (forall x :: x in g.dropped ==> x in g.log) && g.started + w == Keep(g.log, SetOf(g.dropped))
    requires GoesRound(post) && (end.EndTurn? || end.PopNothing?)
    requires var g1 := Moved(g, ReceiveUnlocked, capacity);
             Playable(g1, post, capacity) && Possible(Played(g1, post, capacity), end, capacity)
    ensures InOrder(Moved(Played(Moved(g, ReceiveUnlocked, capacity), post, capacity), end, capacity)) <==>
            g.chan[g.left..] + g.holding == [] && g.left <= 2
  {
    var b, x, u := g.chan[g.left..] + g.holding, g.chan[0], g.chan[1..g.left];
    ReceiveSplits(g, capacity, w);
    EarlyReceiveEnds(g, post, end, capacity, w);
    RotatedLine(g.log, SetOf(g.dropped), g.started, b, x, u);
    var h := Moved(Played(Moved(g, ReceiveUnlocked, capacity), post, capacity), end, capacity);
    RolledEnds(h.chan, []);
    assert h.started + h.hand + Rolled(h.chan, 0, []) == g.started + ([x] + Rotated(b + u));
  }

  lemma SamePrefix(p: seq<Request>, a: seq<Request>, b: seq<Request>)
    ensures p + a == p + b <==> a == b
  {
    if p + a == p + b {
      assert a == (p + a)[|p|..] && b == (p + b)[|p|..];
    }
  }

  /** A receive that comes when nothing is left to pop leaves the rest of the turn in order. */
  lemma {:induction false} LateReceiveKeeps(g: Ring, ms: seq<Move>, capacity: nat)
    requires Playable(g, ms, capacity) && forall i :: 0 <= i < |ms| ==> !ms[i].ReceiveUnlocked?
    ensures AllTimely(g, ms, capacity)
    decreases |ms|
  {
    if ms != [] {
      LateReceiveKeeps(Moved(g, ms[0], capacity), ms[1..], capacity);
    }
  }

  /** The state of a turn at its receive. */
  ghost function AtReceive(g: Ring, pre: seq<Move>, capacity: nat): Ring
    requires Possible(g, StartTurn, capacity) && Playable(Moved(g, StartTurn, capacity), pre, capacity)
  {
    Played(Moved(g, StartTurn, capacity), pre, capacity)
  }

  ghost predicate WholeTurn(g: Ring, pre: seq<Move>, post: seq<Move>, end: Move, capacity: nat) {
    && Possible(g, StartTurn, capacity) && Playable(Moved(g, StartTurn, capacity), pre, capacity)
    && Possible(AtReceive(g, pre, capacity), ReceiveUnlocked, capacity)
    && Playable(Moved(AtReceive(g, pre, capacity), ReceiveUnlocked, capacity), post, capacity)
    && Possible(Played(Moved(AtReceive(g, pre, capacity), ReceiveUnlocked, capacity), post, capacity), end, capacity)
    && GoesRound(pre) && GoesRound(post) && (end.EndTurn? || end.PopNothing?)
  }

  ghost function AfterTurn(g: Ring, pre: seq<Move>, post: seq<Move>, end: Move, capacity: nat): Ring
    requires WholeTurn(g, pre, post, end, capacity)
  {
    Moved(Played(Moved(AtReceive(g, pre, capacity), ReceiveUnlocked, capacity), post, capacity), end, capacity)
  }

  /** What is known of a turn when the receive comes: the line is as it was, and so much of it has gone round. */
  lemma UpToReceive(g: Ring, pre: seq<Move>, capacity: nat)
    requires InOrder(g) && !g.turning && Playable(Moved(g, StartTurn, capacity), pre, capacity) && GoesRound(pre)
    ensures var r := AtReceive(g, pre, capacity);
            && Before(r, g.chan) && SameElsewhere(g, r)
            && (r.chan[r.left..] + r.holding == [] <==> pre == [])
            && (pre == [] ==> r.left == |g.chan|)
  {
    var g0 := Moved(g, StartTurn, capacity);
    RolledEnds(g.chan, []);
    RoundsKeepBefore(g0, pre, capacity, g.chan);
    PoppedCount(g0, pre, capacity);
    assert pre != [] ==> pre[0].Pop?;
    var r := AtReceive(g, pre, capacity);
    assert |r.chan[r.left..] + r.holding| == |g.chan| - r.left;
  }

  /**
   A turn that drops nothing, with one receive in it, started in order: it ends in order exactly when nothing
   was left to pop at the receive, or nothing had been popped and the turn began with at most two tasks.
   */
  lemma TurnKeepsOrderIff(g: Ring, pre: seq<Move>, post: seq<Move>, end: Move, capacity: nat)
    requires InOrder(g) && Mirrored(g) && g.hand == [] && WholeTurn(g, pre, post, end, capacity)
    ensures InOrder(AfterTurn(g, pre, post, end, capacity)) <==>
            AtReceive(g, pre, capacity).left == 0 || (pre == [] && |g.chan| <= 2)
  {
    var r := AtReceive(g, pre, capacity);
    UpToReceive(g, pre, capacity);
    if r.left == 0 {
      TimelyEnd(g, pre, post, end, capacity);
    } else {
      OutsideTurn(g);
      assert [] + g.chan == g.chan;
      EarlyReceiveIff(r, post, end, capacity, g.chan);
    }
  }

  lemma {:induction false} PoppedCount(g: Ring, ms: seq<Move>, capacity: nat)
    requires g.left <= |g.chan| && |g.holding| <= 1 && Playable(g, ms, capacity) && GoesRound(ms)
    ensures var h := Played(g, ms, capacity);
            h.left <= |h.chan| && |h.chan| + |h.holding| == |g.chan| + |g.holding|
    decreases |ms|
  {
    if ms != [] {
      PoppedCount(Moved(g, ms[0], capacity), ms[1..], capacity);
    }
  }

  lemma TimelyEnd(g: Ring, pre: seq<Move>, post: seq<Move>, end: Move, capacity: nat)
    requires InOrder(g) && Mirrored(g) && WholeTurn(g, pre, post, end, capacity) && AtReceive(g, pre, capacity).left == 0
    ensures InOrder(AfterTurn(g, pre, post, end, capacity))
  {
    var g0, r := Moved(g, StartTurn, capacity), AtReceive(g, pre, capacity);
    var r1 := Moved(r, ReceiveUnlocked, capacity);
    MoveKeepsInOrder(g, StartTurn, capacity);
    MoveKeepsMirrored(g, StartTurn, capacity);
    LateReceiveKeeps(g0, pre, capacity);
    PlayKeepsInOrder(g0, pre, capacity);
    MoveKeepsInOrder(r, ReceiveUnlocked, capacity);
    MoveKeepsMirrored(r, ReceiveUnlocked, capacity);
    LateReceiveKeeps(r1, post, capacity);
    PlayKeepsInOrder(r1, post, capacity);
    MoveKeepsInOrder(Played(r1, post, capacity), end, capacity);
  }

  // ---- witnesses ----------------------------------------------------------

  ghost predicate Leads(g: Ring, m: Move, g': Ring, capacity: nat) {
    Possible(g, m, capacity) && g' == Moved(g, m, capacity)
  }

  lemma {:induction false} PlayAll(ms: seq<Move>, states: seq<Ring>, capacity: nat)
    requires |states| == |ms| + 1
    requires forall i :: 0 <= i < |ms| ==> Leads(states[i], ms[i], states[i + 1], capacity)
    ensures Playable(states[0], ms, capacity)
    ensures Played(states[0], ms, capacity) == states[|ms|]
    decreases |ms|
  {
    if ms != [] {
      assert Leads(states[0], ms[0], states[0 + 1], capacity);
      PlayAll(ms[1..], states[1..], capacity);
    }
  }

  lemma {:induction false} PlayConcat(g: Ring, a: seq<Move>, b: seq<Move>, capacity: nat)
    requires Playable(g, a, capacity) && Playable(Played(g, a, capacity), b, capacity)
    ensures Playable(g, a + b, capacity) && Played(g, a + b, capacity) == Played(Played(g, a, capacity), b, capacity)
    decreases |a|
  {
    if a == [] {
      assert a + b == b;
    } else {
      PlayConcat(Moved(g, a[0], capacity), a[1..], b, capacity);
      assert (a + b)[1..] == a[1..] + b;
    }
  }

  /** Two tasks are enough: a receive between the pop and the push overtakes the task just popped. */
  lemma RotationCanReorder(a: Request, b: Request)
    requires a.id != b.id
    ensures var ms := [Send(a), Send(b), StartTurn, Pop, ReceiveUnlocked, PushBack, Pop, PushBack, EndTurn, StartTask];
            && Playable(EMPTY, ms, 2)
            && Played(EMPTY, ms, 2).log == [a, b] && Played(EMPTY, ms, 2).started == [b] && Played(EMPTY, ms, 2).chan == [a]
  {
    var first, second := [Send(a), Send(b), StartTurn, Pop, ReceiveUnlocked], [PushBack, Pop, PushBack, EndTurn, StartTask];
    var all := [a, b];
    PlayAll(first, [EMPTY,
                    Ring([a], [], [a], false, 0, [], [], [], [a]),
                    Ring(all, [], all, false, 0, [], [], [], all),
                    Ring(all, [], all, true, 2, [], [], [], all),
                    Ring([b], [], all, true, 1, [a], [], [], all),
                    Ring([], [b], all, true, 1, [a], [], [], all)], 2);
    ReorderEnd(a, b);
    PlayConcat(EMPTY, first, second, 2);
    assert first + second == [Send(a), Send(b), StartTurn, Pop, ReceiveUnlocked, PushBack, Pop, PushBack, EndTurn, StartTask];
  }

  lemma ReorderEnd(a: Request, b: Request)
    requires a.id != b.id
    ensures var g, ms := Ring([], [b], [a, b], true, 1, [a], [], [], [a, b]), [PushBack, Pop, PushBack, EndTurn, StartTask];
            Playable(g, ms, 2) && Played(g, ms, 2) == Ring([a], [], [a], false, 0, [], [], [b], [a, b])
  {
    var all := [a, b];
    MirrorEnd(a, b, []);
    assert [a] + [b] + [] == all && [a, b] + [] == all && [a] + [] == [a];
    PlayAll([PushBack, Pop, PushBack, EndTurn, StartTask],
            [Ring([], [b], all, true, 1, [a], [], [], all),
             Ring([a], [b], all, true, 1, [], [], [], all),
             Ring([], [b], all, true, 0, [a], [], [], all),
             Ring([a], [b], all, true, 0, [], [], [], all),
             Ring([a], [b], all, false, 0, [], [], [], all),
             Ring([a], [], [a], false, 0, [], [], [b], all)], 2);
  }

  lemma MirrorEnd(a: Request, b: Request, rest: seq<Request>)
    requires a.id != b.id && Distinct([a] + [b] + rest)
    ensures Keep([a, b] + rest, SetOf([b])) == [a] + rest
  {
    KeepMiddle([a], b, rest);
    assert [a] + [b] + rest == [a, b] + rest && SetOf([b]) == {b};
  }

  /** With three tasks the channel ends in another order than the mirror, and lending meets a task it did not expect. */
  lemma LendingCanDrift(a: Request, b: Request, c: Request)
    requires a.id != b.id && a.id != c.id && b.id != c.id
    ensures var ms := [Send(a), Send(b), Send(c), StartTurn, Pop, ReceiveUnlocked, PushBack, Pop, PushBack, Pop, PushBack, EndTurn, StartTask];
            && Playable(EMPTY, ms, 3)
            && Played(EMPTY, ms, 3).mirror == [a, c] && Played(EMPTY, ms, 3).chan == [c, a] && Drifts(Played(EMPTY, ms, 3))
  {
    var first := [Send(a), Send(b), Send(c), StartTurn, Pop, ReceiveUnlocked, PushBack];
    var second := [Pop, PushBack, Pop, PushBack, EndTurn, StartTask];
    DriftBegin(a, b, c);
    DriftEnd(a, b, c);
    PlayConcat(EMPTY, first, second, 3);
    assert first + second == [Send(a), Send(b), Send(c), StartTurn, Pop, ReceiveUnlocked, PushBack, Pop, PushBack, Pop, PushBack, EndTurn, StartTask];
  }

  lemma DriftBegin(a: Request, b: Request, c: Request)
    requires a.id != b.id && a.id != c.id && b.id != c.id
    ensures var ms := [Send(a), Send(b), Send(c), StartTurn, Pop, ReceiveUnlocked, PushBack];
            Playable(EMPTY, ms, 3) && Played(EMPTY, ms, 3) == Ring([c, a], [b], [a, b, c], true, 2, [], [], [], [a, b, c])
  {
    var all := [a, b, c];
    PlayAll([Send(a), Send(b), Send(c), StartTurn, Pop, ReceiveUnlocked, PushBack],
            [EMPTY,
             Ring([a], [], [a], false, 0, [], [], [], [a]),
             Ring([a, b], [], [a, b], false, 0, [], [], [], [a, b]),
             Ring(all, [], all, false, 0, [], [], [], all),
             Ring(all, [], all, true, 3, [], [], [], all),
             Ring([b, c], [], all, true, 2, [a], [], [], all),
             Ring([c], [b], all, true, 2, [a], [], [], all),
             Ring([c, a], [b], all, true, 2, [], [], [], all)], 3);
  }

  lemma DriftEnd(a: Request, b: Request, c: Request)
    requires a.id != b.id && a.id != c.id && b.id != c.id
    ensures var g, ms := Ring([c, a], [b], [a, b, c], true, 2, [], [], [], [a, b, c]), [Pop, PushBack, Pop, PushBack, EndTurn, StartTask];
            Playable(g, ms, 3) && Played(g, ms, 3) == Ring([c, a], [], [a, c], false, 0, [], [], [b], [a, b, c])
  {
    var all := [a, b, c];
    MirrorEnd(a, b, [c]);
    assert [a, b] + [c] == all && [a] + [c] == [a, c];
    PlayAll([Pop, PushBack, Pop, PushBack, EndTurn, StartTask],
            [Ring([c, a], [b], all, true, 2, [], [], [], all),
             Ring([a], [b], all, true, 1, [c], [], [], all),
             Ring([a, c], [b], all, true, 1, [], [], [], all),
             Ring([c], [b], all, true, 0, [a], [], [], all),
             Ring([c, a], [b], all, true, 0, [], [], [], all),
             Ring([c, a], [b], all, false, 0, [], [], [], all),
             Ring([c, a], [], [a, c], false, 0, [], [], [b], all)], 3);
  }
}
