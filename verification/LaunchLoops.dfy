/**
 The rips that use the in-use registry, as goroutines: each rip has a main goroutine and the tracks it
 launched (bot/main.go, reconcileRelease, ripAlbum and its siblings). Tracks and the main goroutine register
 paths; only the main goroutine gives claims back, at a flush or when the rip is over, and it does so after
 its wait group has reached zero. This wait is what keeps a rip's own claims and releases apart.
 */
module LaunchLoops {
  import opened FiniteSums
  import opened InUseRegistry

  /** What the main goroutine is doing. */
  datatype Main = Looping | Registering(p: Path) | Releasing

  datatype Crew = Crew(
    wg: nat,        // launched tracks that are not done
    free: nat,      // those of them that are not inside retain
    main: Main)

  const NEW_CREW := Crew(0, 0, Looping)

  datatype Act =
    | Launch
    | TrackClaims(p: Path)      // the first half of a track's retain
    | TrackRaises(p: Path)      // the second
    | TrackEnds
    | MainClaims(p: Path)       // artwork is registered by the main goroutine
    | MainRaises
    | Wait                      // the wait group is at zero: a flush was delivered, or the rip is over
    | Drops(p: Path)
    | Lowers(p: Path)
    | DropsAll
    | Resume

  datatype System = System(s: Sys, crews: map<int, Crew>)

  datatype Event =
    | Open(r: int)
    | By(r: int, act: Act)
    | Else(step: Step)

  const BEGIN := System(START, map[])

  /** The half-operation of the registry that an act is, if it is one. */
  function OpOf(c: Crew, act: Act): seq<Op> {
    match act
    case TrackClaims(p) => [RetainHeld(p)]
    case TrackRaises(p) => [RetainRef(p)]
    case MainClaims(p) => [RetainHeld(p)]
    case MainRaises => if c.main.Registering? then [RetainRef(c.main.p)] else []
    case Drops(p) => [ReleaseHeld(p)]
    case Lowers(p) => [ReleaseRef(p)]
    case DropsAll => [ReleaseAll]
    case _ => []
  }

  /** How many retains of p the main goroutine itself is inside of. */
  function Own(c: Crew, p: Path): nat {
    if c.main == Registering(p) then 1 else 0
  }

  predicate CanAct(c: Crew, rip: Rip, act: Act) {
    && (OpOf(c, act) != [] ==> OpEnabled(rip, OpOf(c, act)[0]))
    && match act
       case Launch => c.main.Looping?
       case TrackClaims(_) => c.free > 0
       case TrackRaises(p) => Get(rip.retaining, p) > Own(c, p)
       case TrackEnds => c.free > 0 && c.wg > 0
       case MainClaims(_) => c.main.Looping?
       case MainRaises => c.main.Registering?
       case Wait => c.main.Looping? && c.wg == 0
       case Drops(_) => c.main.Releasing?
       case Lowers(_) => c.main.Releasing?
       case DropsAll => c.main.Releasing?
       case Resume => c.main.Releasing? && rip.releasing == map[]
  }

  function CrewAfter(c: Crew, act: Act): Crew
    requires act.TrackEnds? ==> c.wg > 0
    requires act.TrackClaims? || act.TrackEnds? ==> c.free > 0
  {
    match act
    case Launch => c.(wg := c.wg + 1, free := c.free + 1)
    case TrackClaims(_) => c.(free := c.free - 1)
    case TrackRaises(_) => c.(free := c.free + 1)
    case TrackEnds => c.(wg := c.wg - 1, free := c.free - 1)
    case MainClaims(p) => c.(main := Registering(p))
    case MainRaises => c.(main := Looping)
    case Wait => c.(main := Releasing)
    case Resume => c.(main := Looping)
    case _ => c
  }

  predicate Possible(y: System, ev: Event) {
    match ev
    case Open(r) => r !in y.s.rips && r !in y.crews
    case By(r, act) => r in y.s.rips && r in y.crews && CanAct(y.crews[r], y.s.rips[r], act)
    case Else(step) => !step.Register? && !step.Do? && InUseRegistry.Enabled(y.s, step)
  }

  /** The step of the registry that an event is, if it is one. */
  function StepOf(y: System, ev: Event): seq<Step>
    requires Possible(y, ev)
  {
    match ev
    case Open(r) => [Register(r)]
    case By(r, act) => if OpOf(y.crews[r], act) == [] then [] else [Do(r, OpOf(y.crews[r], act)[0])]
    case Else(step) => [step]
  }

  function After(y: System, ev: Event, norm: Path -> Key): System
    requires Possible(y, ev)
  {
    System(
      if StepOf(y, ev) == [] then y.s else InUseRegistry.Apply(y.s, StepOf(y, ev)[0], norm),
      match ev
      case Open(r) => y.crews[r := NEW_CREW]
      case By(r, act) => y.crews[r := CrewAfter(y.crews[r], act)]
      case Else(_) => y.crews)
  }

  // ---- one rip ------------------------------------------------------------

  /** The wait group counts the tracks outside retain and the retains under way. */
  ghost predicate CrewOk(c: Crew, rip: Rip) {
    && AllPositive(rip)
    && c.free + Sum(rip.retaining) == c.wg + (if c.main.Registering? then 1 else 0)
    && (c.main.Registering? ==> c.main.p in rip.retaining)
    && (c.main.Releasing? ==> c.wg == 0)
    && (!c.main.Releasing? ==> rip.releasing == map[])
    && (forall p :: Get(rip.retaining, p) <= Get(rip.held, p))
  }

  /** Waiting works: while a rip releases, none of its retains is half done. */
  lemma WaitedOut(c: Crew, rip: Rip)
    requires CrewOk(c, rip) && c.main.Releasing?
    ensures rip.retaining == map[]
  {
    SumZero(rip.retaining);
    forall p ensures p !in rip.retaining {}
  }

  lemma SumInc(m: Counts, p: Path)
    ensures Sum(Inc(m, p)) == Sum(m) + 1
  {
    SumUpdate(m, p, Get(m, p) + 1);
  }

  lemma SumDec(m: Counts, p: Path)
    requires p in m && Positive(m)
    ensures Sum(Dec(m, p)) + 1 == Sum(m)
  {
    DecThenInc(m, p);
    SumInc(Dec(m, p), p);
  }

  function RipAfter(c: Crew, rip: Rip, act: Act): Rip
    requires CanAct(c, rip, act)
  {
    if OpOf(c, act) == [] then rip else OpOnRip(rip, OpOf(c, act)[0])
  }

  /** Both sides of the wait group's account move together. */
  lemma ActMovesTracks(c: Crew, rip: Rip, act: Act)
    requires CrewOk(c, rip) && CanAct(c, rip, act)
    ensures var c', rip' := CrewAfter(c, act), RipAfter(c, rip, act);
            c'.free + Sum(rip'.retaining) == c'.wg + if c'.main.Registering? then 1 else 0
  {
    match act {
      case TrackClaims(p) => SumInc(rip.retaining, p);
      case MainClaims(p) => SumInc(rip.retaining, p);
      case TrackRaises(p) => SumDec(rip.retaining, p);
      case MainRaises => SumDec(rip.retaining, c.main.p);
      case _ =>
    }
  }

  /** What is half registered is in the rip's own table, since nothing is given back meanwhile. */
  lemma ActKeepsHeld(c: Crew, rip: Rip, act: Act)
    requires CrewOk(c, rip) && CanAct(c, rip, act)
    ensures forall p :: Get(RipAfter(c, rip, act).retaining, p) <= Get(RipAfter(c, rip, act).held, p)
  {
    if c.main.Releasing? {
      WaitedOut(c, rip);
    }
    forall p ensures Get(RipAfter(c, rip, act).retaining, p) <= Get(RipAfter(c, rip, act).held, p) {
      assert Get(rip.retaining, p) <= Get(rip.held, p);
    }
  }

  lemma ActKeepsCrewOk(c: Crew, rip: Rip, act: Act, norm: Path -> Key)
    requires CrewOk(c, rip) && CanAct(c, rip, act)
    ensures CrewOk(CrewAfter(c, act), RipAfter(c, rip, act))
  {
    if OpOf(c, act) != [] {
      OpMoves(rip, OpOf(c, act)[0], "", norm);
    }
    ActMovesTracks(c, rip, act);
    ActKeepsHeld(c, rip, act);
  }

  // ---- the account of one file --------------------------------------------

  lemma WeightAtMost(a: Counts, b: Counts, k: Key, norm: Path -> Key)
    requires Positive(a) && forall p :: Get(a, p) <= Get(b, p)
    ensures Weight(a, k, norm) <= Weight(b, k, norm)
  {
    forall p | p in Naming(a, k, norm) ensures p in Naming(b, k, norm) && Naming(a, k, norm)[p] <= Naming(b, k, norm)[p] {
      assert Get(a, p) <= Get(b, p);
    }
    SumAtMost(Naming(a, k, norm), Naming(b, k, norm));
  }

  lemma OwesNothing(c: Crew, rip: Rip, k: Key, norm: Path -> Key)
    requires CrewOk(c, rip)
    ensures Down(rip, k, norm) <= Up(rip, k, norm)
  {
    WeightAtMost(rip.retaining, rip.held, k, norm);
  }

  ghost predicate Sound(y: System, norm: Path -> Key) {
    && Accounted(y.s, norm)
    && y.s.missed == map[]
    && CrewsOk(y)
  }

  /** If one rip's account of a file is positive, so is the count. */
  lemma PositiveCount(y: System, r: int, k: Key, norm: Path -> Key)
    requires Sound(y, norm) && r in y.s.rips && Down(y.s.rips[r], k, norm) < Up(y.s.rips[r], k, norm)
    ensures Get(y.s.ref, k) > 0
  {
    var ups, downs := UpMap(y.s.rips, k, norm), DownMap(y.s.rips, k, norm);
    forall x | x in downs ensures x in ups && downs[x] <= ups[x] {
      OwesNothing(y.crews[x], y.s.rips[x], k, norm);
    }
    SumBelow(downs, ups, r);
    assert AccountedAt(y.s, k, norm);
  }

  lemma ReleaseFinds(y: System, r: int, p: Path, norm: Path -> Key)
    requires Sound(y, norm) && r in y.s.rips && y.crews[r].main.Releasing? && p in y.s.rips[r].releasing
    ensures Get(y.s.ref, norm(p)) > 0
  {
    var rip := y.s.rips[r];
    WaitedOut(y.crews[r], rip);
    WeightZero(map[], norm);
    HasWeight(rip.releasing, p, norm);
    PositiveCount(y, r, norm(p), norm);
  }

  lemma HasWeight(m: Counts, p: Path, norm: Path -> Key)
    requires Positive(m) && p in m
    ensures Weight(m, norm(p), norm) > 0
  {
    SumZero(Naming(m, norm(p), norm));
    assert p in Naming(m, norm(p), norm) && Naming(m, norm(p), norm)[p] == m[p];
  }

  ghost predicate CrewsOk(y: System) {
    y.crews.Keys == y.s.rips.Keys && forall r :: r in y.crews ==> CrewOk(y.crews[r], y.s.rips[r])
  }

  lemma ActOnCrews(y: System, r: int, act: Act, norm: Path -> Key)
    requires CrewsOk(y) && Possible(y, By(r, act))
    ensures CrewsOk(After(y, By(r, act), norm))
  {
    var c, rip := y.crews[r], y.s.rips[r];
    var y' := After(y, By(r, act), norm);
    ActKeepsCrewOk(c, rip, act, norm);
    assert y'.crews == y.crews[r := CrewAfter(c, act)] && y'.s.rips == y.s.rips[r := RipAfter(c, rip, act)];
  }

  lemma OnlyLowersReleases(c: Crew, act: Act)
    ensures OpOf(c, act) != [] && OpOf(c, act)[0].ReleaseRef? ==> act.Lowers? && OpOf(c, act)[0].p == act.p
  {
  }

  lemma OpMissesNothing(s: Sys, r: int, op: Op, norm: Path -> Key)
    requires InUseRegistry.Enabled(s, Do(r, op)) && s.missed == map[] && (op.ReleaseRef? ==> Get(s.ref, norm(op.p)) > 0)
    ensures InUseRegistry.Apply(s, Do(r, op), norm).missed == map[]
  {
  }

  lemma LowersFinds(y: System, r: int, p: Path, norm: Path -> Key)
    requires Sound(y, norm) && Possible(y, By(r, Lowers(p)))
    ensures Get(y.s.ref, norm(p)) > 0
  {
    ReleaseFinds(y, r, p, norm);
  }

  lemma ActOnMissed(y: System, r: int, act: Act, norm: Path -> Key)
    requires Possible(y, By(r, act)) && y.s.missed == map[] && (act.Lowers? ==> Get(y.s.ref, norm(act.p)) > 0)
    ensures After(y, By(r, act), norm).s.missed == map[]
  {
    OnlyLowersReleases(y.crews[r], act);
    if OpOf(y.crews[r], act) != [] {
      OpMissesNothing(y.s, r, OpOf(y.crews[r], act)[0], norm);
    }
  }

  lemma ActOnAccount(y: System, r: int, act: Act, norm: Path -> Key)
    requires Accounted(y.s, norm) && Possible(y, By(r, act))
    ensures Accounted(After(y, By(r, act), norm).s, norm)
  {
    var op := OpOf(y.crews[r], act);
    if op != [] {
      StepKeepsAccounted(y.s, Do(r, op[0]), norm);
    }
  }

  lemma ActKeepsSound(y: System, r: int, act: Act, norm: Path -> Key)
    requires Sound(y, norm) && Possible(y, By(r, act))
    ensures Sound(After(y, By(r, act), norm), norm)
  {
    ActOnCrews(y, r, act, norm);
    if act.Lowers? {
      LowersFinds(y, r, act.p, norm);
    }
    ActOnMissed(y, r, act, norm);
    ActOnAccount(y, r, act, norm);
  }

  lemma EventKeepsSound(y: System, ev: Event, norm: Path -> Key)
    requires Sound(y, norm) && Possible(y, ev)
    ensures Sound(After(y, ev, norm), norm)
  {
    match ev {
      case Open(r) =>
        StepKeepsAccounted(y.s, Register(r), norm);
        SumZero<string>(map[]);
      case By(r, act) => ActKeepsSound(y, r, act, norm);
      case Else(step) => StepKeepsAccounted(y.s, step, norm);
    }
  }

  // ---- every run ----------------------------------------------------------

  ghost predicate Runs(y: System, evs: seq<Event>, norm: Path -> Key)
    decreases |evs|
  {
    evs == [] || (Possible(y, evs[0]) && Runs(After(y, evs[0], norm), evs[1..], norm))
  }

  ghost function Ran(y: System, evs: seq<Event>, norm: Path -> Key): System
    requires Runs(y, evs, norm)
    decreases |evs|
  {
    if evs == [] then y else Ran(After(y, evs[0], norm), evs[1..], norm)
  }

  lemma {:induction false} RunKeepsSound(y: System, evs: seq<Event>, norm: Path -> Key)
    requires Sound(y, norm) && Runs(y, evs, norm)
    ensures Sound(Ran(y, evs, norm), norm)
    decreases |evs|
  {
    if evs != [] {
      EventKeepsSound(y, evs[0], norm);
      RunKeepsSound(After(y, evs[0], norm), evs[1..], norm);
    }
  }

  lemma ReachedIsSound(evs: seq<Event>, norm: Path -> Key)
    requires Runs(BEGIN, evs, norm)
    ensures Sound(Ran(BEGIN, evs, norm), norm)
  {
    StartAccounted(norm);
    RunKeepsSound(BEGIN, evs, norm);
  }

  /** No run of any set of rips misses a release: every half-done retain is over before its rip gives anything back. */
  lemma NothingMissed(evs: seq<Event>, norm: Path -> Key)
    requires Runs(BEGIN, evs, norm)
    ensures Ran(BEGIN, evs, norm).s.missed == map[]
  {
    ReachedIsSound(evs, norm);
  }

  /** Between operations the count of a file is the sum over the rips of the entries that name it. */
  lemma CountIsSumOfHeld(evs: seq<Event>, k: Key, norm: Path -> Key)
    requires Runs(BEGIN, evs, norm) && Quiet(Ran(BEGIN, evs, norm).s)
    ensures var s := Ran(BEGIN, evs, norm).s; Get(s.ref, k) == Sum(HeldMap(s.rips, k, norm))
  {
    ReachedIsSound(evs, norm);
    QuietAccount(Ran(BEGIN, evs, norm).s, k, norm);
  }

  /** Between operations the purge may run exactly when nothing is in progress and no rip holds a file. */
  lemma PurgeIff(evs: seq<Event>, norm: Path -> Key)
    requires Runs(BEGIN, evs, norm) && Quiet(Ran(BEGIN, evs, norm).s)
    ensures var s := Ran(BEGIN, evs, norm).s;
            InUseRegistry.Enabled(s, Purge) <==> !s.inProgress && forall r :: r in s.rips ==> s.rips[r].held == map[]
  {
    ReachedIsSound(evs, norm);
    EmptyIff(Ran(BEGIN, evs, norm).s, norm);
  }

  /** No guarded deletion, in any run and by whatever deleter, removes a file that a rip has registered and not given back. */
  lemma ClaimedFilesStay(evs: seq<Event>, ev: Event, r: int, p: Path, norm: Path -> Key)
    requires Runs(BEGIN, evs, norm) && Possible(Ran(BEGIN, evs, norm), ev)
    requires var s := Ran(BEGIN, evs, norm).s;
             r in s.rips && Get(s.rips[r].held, p) > Get(s.rips[r].retaining, p) && norm(p) in s.files
    ensures norm(p) in After(Ran(BEGIN, evs, norm), ev, norm).s.files
  {
    ReachedIsSound(evs, norm);
    var y := Ran(BEGIN, evs, norm);
    MoreHeld(y.crews[r], y.s.rips[r], p, norm);
    PositiveCount(y, r, norm(p), norm);
  }

  lemma MoreHeld(c: Crew, rip: Rip, p: Path, norm: Path -> Key)
    requires CrewOk(c, rip) && Get(rip.held, p) > Get(rip.retaining, p)
    ensures Down(rip, norm(p), norm) < Up(rip, norm(p), norm)
  {
    var k := norm(p);
    forall q | q in Naming(rip.retaining, k, norm)
      ensures q in Naming(rip.held, k, norm) && Naming(rip.retaining, k, norm)[q] <= Naming(rip.held, k, norm)[q]
    {
      assert Get(rip.retaining, q) <= Get(rip.held, q);
    }
    SumBelow(Naming(rip.retaining, k, norm), Naming(rip.held, k, norm), p);
  }
}
