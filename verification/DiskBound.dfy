/**
 The disk bound of a track launch loop (bot/main.go with bot/ripstate.go): every launch is
 preceded by a checkpoint, a semaphore admits at most `budget` tracks, and a checkpoint over the
 threshold waits for the running tracks and flushes. A running track registers at most one file
 of at most `maxSize` bytes and then leaves its slot; other tracks do so at any moment. Flushes
 succeed and the rip is not cancelled.
 */
module DiskBound {
  import opened FlushCursor

  datatype Phase = Checking | Draining | Launching

  datatype Loop = Loop(
    c: Cursor,
    working: nat,       // running tracks that may still register their file
    ending: nat,        // running tracks that have registered it
    phase: Phase,
    checked: bool)      // the loop has passed its first checkpoint

  datatype Params = Params(size: Path -> nat, threshold: int, budget: nat, maxSize: nat, stageOnly: bool)

  /** The slots of one rip: its grant, if that is a share of the pool, and the whole pool otherwise. */
  function WrapperBudget(granted: int, capacity: int): (n: nat)
    ensures 1 <= n && (capacity >= 1 ==> n <= capacity)
    ensures 1 <= granted <= capacity ==> n == granted
  {
    var pool := if capacity < 1 then 1 else capacity;
    if granted <= 0 || granted > pool then pool else granted
  }

  datatype Step =
    | Check                 // measure; go on to launch, or start to drain
    | FlushStep             // drained: measure again, deliver, advance
    | Launch
    | RegisterFile(p: Path)
    | GiveUp                // a track fails without a file
    | Leave                 // a track frees its slot

  predicate Enabled(l: Loop, step: Step, k: Params) {
    match step
    case Check => l.phase == Checking
    case FlushStep => l.phase == Draining && l.working == 0 && l.ending == 0
    case Launch => l.phase == Launching && l.working + l.ending < k.budget
    case RegisterFile(p) => l.working > 0 && k.size(p) <= k.maxSize
    case GiveUp => l.working > 0
    case Leave => l.ending > 0
  }

  function Flushed(c: Cursor, k: Params): Cursor
    requires InBounds(c)
  {
    var m := Measured(c, k.size);
    if m.flushStart == |m.paths| then m.(pending := 0) else Delivered(m, Cut(m), k.stageOnly)
  }

  function Apply(l: Loop, step: Step, k: Params): Loop
    requires InBounds(l.c) && Enabled(l, step, k)
  {
    match step
    case Check =>
      var c := Measured(l.c, k.size);
      if c.pending < k.threshold then l.(c := c, phase := Launching, checked := true)
      else l.(c := c, phase := Draining)
    case FlushStep => l.(c := Flushed(l.c, k), phase := Launching, checked := true)
    case Launch => l.(working := l.working + 1, phase := Checking)
    case RegisterFile(p) => l.(c := Added(l.c, p), working := l.working - 1, ending := l.ending + 1)
    case GiveUp => l.(working := l.working - 1, ending := l.ending + 1)
    case Leave => l.(ending := l.ending - 1)
  }

  /** The bytes registered and not delivered. */
  function Undelivered(c: Cursor, k: Params): nat
    requires InBounds(c)
  {
    SizeOf(c.paths[c.flushStart..], k.size)
  }

  ghost predicate Counted(c: Cursor, k: Params) {
    && InBounds(c)
    && From(c) == c.measured
    && c.pending == SizeOf(c.paths[c.flushStart..c.measured], k.size)
  }

  ghost predicate Bounded(l: Loop, k: Params) {
    && Counted(l.c, k)
    && l.working + l.ending <= k.budget
    && (l.checked ==>
          Undelivered(l.c, k) + l.working * k.maxSize
          < k.threshold + (if l.phase == Launching then k.budget else k.budget + 1) * k.maxSize)
  }

  lemma MeasureCounts(c: Cursor, k: Params)
    requires Counted(c, k)
    ensures Counted(Measured(c, k.size), k)
    ensures Measured(c, k.size).pending == Undelivered(c, k) == Undelivered(Measured(c, k.size), k)
  {
    assert c.paths[c.flushStart..] == c.paths[c.flushStart..c.measured] + c.paths[c.measured..];
    SizeConcat(c.paths[c.flushStart..c.measured], c.paths[c.measured..], k.size);
    assert c.paths[c.flushStart..|c.paths|] == c.paths[c.flushStart..];
  }

  lemma AddCounts(c: Cursor, p: Path, k: Params)
    requires Counted(c, k)
    ensures Counted(Added(c, p), k)
    ensures Undelivered(Added(c, p), k) == Undelivered(c, k) + k.size(p)
  {
    var c' := Added(c, p);
    assert c'.paths[c.flushStart..c.measured] == c.paths[c.flushStart..c.measured];
    assert c'.paths[c.flushStart..] == c.paths[c.flushStart..] + [p];
    SizeConcat(c.paths[c.flushStart..], [p], k.size);
    assert SizeOf([p], k.size) == k.size(p) + SizeOf([], k.size);
  }

  lemma Scale(a: nat, b: nat, m: nat)
    requires a <= b
    ensures a * m <= b * m
  {
  }

  lemma StepKeepsBounded(l: Loop, step: Step, k: Params)
    requires Bounded(l, k) && Enabled(l, step, k) && k.threshold > 0
    ensures Bounded(Apply(l, step, k), k)
  {
    var l' := Apply(l, step, k);
    var m := k.maxSize;
    Scale(k.budget, k.budget + 1, m);
    match step {
      case Check =>
        MeasureCounts(l.c, k);
        Scale(l.working, k.budget, m);
      case FlushStep =>
        MeasureCounts(l.c, k);
        assert l'.c.paths[l'.c.flushStart..] == [];
        Scale(0, k.budget, m);
      case Launch =>
        assert (l.working + 1) * m == l.working * m + m;
        assert (k.budget + 1) * m == k.budget * m + m;
      case RegisterFile(p) =>
        AddCounts(l.c, p, k);
        assert (l.working - 1) * m + m == l.working * m;
      case GiveUp => assert (l.working - 1) * m + m == l.working * m;
      case Leave =>
    }
  }

  ghost predicate Legal(l: Loop, steps: seq<Step>, k: Params)
    requires InBounds(l.c)
    decreases |steps|
  {
    steps == [] ||
    (Enabled(l, steps[0], k) && (StepsStayInBounds(l, steps[0], k); Legal(Apply(l, steps[0], k), steps[1..], k)))
  }

  ghost function Exec(l: Loop, steps: seq<Step>, k: Params): Loop
    requires InBounds(l.c) && Legal(l, steps, k)
    ensures InBounds(Exec(l, steps, k).c)
    decreases |steps|
  {
    if steps == [] then l else Exec(Apply(l, steps[0], k), steps[1..], k)
  }

  lemma {:induction false} RunKeepsBounded(l: Loop, steps: seq<Step>, k: Params)
    requires Bounded(l, k) && k.threshold > 0 && Legal(l, steps, k)
    ensures Bounded(Exec(l, steps, k), k)
    decreases |steps|
  {
    if steps != [] {
      StepKeepsBounded(l, steps[0], k);
      RunKeepsBounded(Apply(l, steps[0], k), steps[1..], k);
    }
  }

  /**
   From the first checkpoint on, in every interleaving: what is on disk undelivered plus what the
   running tracks can still add stays below the threshold and one file for each slot and one more.
   The loop starts with whatever an earlier phase of the rip registered.
   */
  lemma DiskStaysBounded(c: Cursor, steps: seq<Step>, k: Params)
    requires Counted(c, k) && k.threshold > 0
    requires Legal(Loop(c, 0, 0, Checking, false), steps, k)
    ensures var l := Exec(Loop(c, 0, 0, Checking, false), steps, k);
            l.checked ==> Undelivered(l.c, k) + l.working * k.maxSize < k.threshold + (k.budget + 1) * k.maxSize
  {
    RunKeepsBounded(Loop(c, 0, 0, Checking, false), steps, k);
    Scale(k.budget, k.budget + 1, k.maxSize);
  }

  /** A step that is enabled never leaves the cursor out of bounds. */
  lemma StepsStayInBounds(l: Loop, step: Step, k: Params)
    requires InBounds(l.c) && Enabled(l, step, k)
    ensures InBounds(Apply(l, step, k).c)
  {
  }
}
