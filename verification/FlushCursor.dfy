/**
 The cursor of a rip's mid-rip flushes (bot/ripstate.go): the files registered so far, how many
 of them went out, and the running total that decides when to flush. Flushing is one flusher with
 two routes, the byte-threshold checkpoint and the release boundary; files may be registered at
 any moment, also while a chunk is being delivered.
 */
module FlushCursor {

  type Path = string

  datatype Cursor = Cursor(
    paths: seq<Path>,       // every registered file, in order
    flushStart: nat,        // index of the first file not yet delivered
    measured: nat,          // files before this index are in pending
    pending: int,
    parts: nat,             // chunks delivered so far
    flushedAny: bool)

  /** A chunk handed to the delivery callback. */
  datatype Chunk = Chunk(files: seq<Path>, end: nat, part: nat)

  predicate InBounds(c: Cursor) {
    c.flushStart <= |c.paths| && c.measured <= |c.paths|
  }

  function SizeOf(files: seq<Path>, size: Path -> nat): nat {
    if files == [] then 0 else size(files[0]) + SizeOf(files[1..], size)
  }

  lemma {:induction false} SizeConcat(a: seq<Path>, b: seq<Path>, size: Path -> nat)
    ensures SizeOf(a + b, size) == SizeOf(a, size) + SizeOf(b, size)
  {
    if a == [] {
      assert a + b == b;
    } else {
      SizeConcat(a[1..], b, size);
      assert (a + b)[1..] == a[1..] + b;
    }
  }

  lemma SizeOfNext(files: seq<Path>, start: nat, i: nat, size: Path -> nat)
    requires start <= i < |files|
    ensures SizeOf(files[start..i + 1], size) == SizeOf(files[start..i], size) + size(files[i])
  {
    assert files[start..i + 1] == files[start..i] + [files[i]];
    SizeConcat(files[start..i], [files[i]], size);
    assert [files[i]][1..] == [];
  }

  function Added(c: Cursor, p: Path): Cursor {
    c.(paths := c.paths + [p])
  }

  function From(c: Cursor): nat {
    if c.measured < c.flushStart then c.flushStart else c.measured
  }

  function Measured(c: Cursor, size: Path -> nat): Cursor
    requires InBounds(c)
  {
    c.(pending := c.pending + SizeOf(c.paths[From(c)..], size), measured := |c.paths|)
  }

  function Cut(c: Cursor): Chunk
    requires InBounds(c)
  {
    Chunk(c.paths[c.flushStart..], |c.paths|, c.parts + 1)
  }

  function Delivered(c: Cursor, chunk: Chunk, stageOnly: bool): Cursor {
    c.(parts := chunk.part, flushStart := chunk.end, measured := chunk.end, pending := 0,
       flushedAny := c.flushedAny || !stageOnly)
  }

  function Remainder(c: Cursor): seq<Path>
    requires InBounds(c)
  {
    c.paths[c.flushStart..]
  }

  // ---- every interleaving -------------------------------------------------

  datatype Flow = Flow(
    c: Cursor,
    out: seq<Chunk>,        // at most one chunk is being delivered
    log: seq<Chunk>)        // successful deliveries, in order

  datatype Step =
    | Register(p: Path)
    | MeasureStep
    | Begin                 // a checkpoint over the threshold or a release boundary cuts a chunk
    | BeginEmpty            // a checkpoint finds nothing to cut and resets its total
    | EndOk
    | EndFailedCheckpoint
    | EndFailedBoundary

  const START := Flow(Cursor([], 0, 0, 0, 0, false), [], [])

  predicate Enabled(f: Flow, step: Step) {
    match step
    case Register(p) => true
    case MeasureStep => InBounds(f.c) && f.out == []
    case Begin => InBounds(f.c) && f.out == [] && f.c.flushStart < |f.c.paths|
    case BeginEmpty => f.out == [] && f.c.flushStart == |f.c.paths|
    case EndOk => f.out != []
    case EndFailedCheckpoint => f.out != []
    case EndFailedBoundary => f.out != []
  }

  function Apply(f: Flow, step: Step, size: Path -> nat, stageOnly: bool): Flow
    requires Enabled(f, step)
  {
    match step
    case Register(p) => f.(c := Added(f.c, p))
    case MeasureStep => f.(c := Measured(f.c, size))
    case Begin => f.(out := [Cut(f.c)])
    case BeginEmpty => f.(c := f.c.(pending := 0))
    case EndOk => Flow(Delivered(f.c, f.out[0], stageOnly), [], f.log + [f.out[0]])
    case EndFailedCheckpoint => Flow(f.c.(pending := 0), [], f.log)
    case EndFailedBoundary => f.(out := [])
  }

  /** The delivered chunks laid end to end. */
  function Flatten(log: seq<Chunk>): seq<Path> {
    if log == [] then [] else Flatten(log[..|log| - 1]) + log[|log| - 1].files
  }

  predicate Numbered(log: seq<Chunk>) {
    forall i :: 0 <= i < |log| ==> log[i].part == i + 1 && log[i].files != []
  }

  ghost predicate Conserved(f: Flow) {
    && InBounds(f.c)
    && |f.out| <= 1
    && (f.out != [] ==>
          && f.c.measured <= f.out[0].end
          && f.c.flushStart < f.out[0].end <= |f.c.paths|
          && f.out[0] == Chunk(f.c.paths[f.c.flushStart..f.out[0].end], f.out[0].end, f.c.parts + 1))
    && Flatten(f.log) == f.c.paths[..f.c.flushStart]
    && |f.log| == f.c.parts && Numbered(f.log)
  }

  lemma StepKeepsConserved(f: Flow, step: Step, size: Path -> nat, stageOnly: bool)
    requires Conserved(f) && Enabled(f, step)
    ensures Conserved(Apply(f, step, size, stageOnly))
  {
    var f' := Apply(f, step, size, stageOnly);
    match step {
      case Register(p) =>
        assert f'.c.paths[..f.c.flushStart] == f.c.paths[..f.c.flushStart];
        if f.out != [] {
          assert f'.c.paths[f.c.flushStart..f.out[0].end] == f.c.paths[f.c.flushStart..f.out[0].end];
        }
      case EndOk =>
        assert f'.log[..|f'.log| - 1] == f.log;
        assert f.c.paths[..f.out[0].end] == f.c.paths[..f.c.flushStart] + f.out[0].files;
      case _ =>
    }
  }

  ghost predicate Legal(f: Flow, steps: seq<Step>, size: Path -> nat, stageOnly: bool)
    decreases |steps|
  {
    steps == [] || (Enabled(f, steps[0]) && Legal(Apply(f, steps[0], size, stageOnly), steps[1..], size, stageOnly))
  }

  ghost function Exec(f: Flow, steps: seq<Step>, size: Path -> nat, stageOnly: bool): Flow
    requires Legal(f, steps, size, stageOnly)
    decreases |steps|
  {
    if steps == [] then f else Exec(Apply(f, steps[0], size, stageOnly), steps[1..], size, stageOnly)
  }

  function News(step: Step): seq<Path> {
    if step.Register? then [step.p] else []
  }

  /** The files a run registers, in order. */
  function Registered(steps: seq<Step>): seq<Path> {
    if steps == [] then [] else News(steps[0]) + Registered(steps[1..])
  }

  lemma StepRegisters(f: Flow, step: Step, size: Path -> nat, stageOnly: bool)
    requires Conserved(f) && Enabled(f, step)
    ensures Apply(f, step, size, stageOnly).c.paths == f.c.paths + News(step)
  {
  }

  lemma Regroup(a: seq<Path>, b: seq<Path>, c: seq<Path>)
    ensures a + b + c == a + (b + c)
  {
  }

  lemma {:induction false} RunConserves(f: Flow, steps: seq<Step>, size: Path -> nat, stageOnly: bool)
    requires Conserved(f) && Legal(f, steps, size, stageOnly)
    ensures Conserved(Exec(f, steps, size, stageOnly))
    ensures Exec(f, steps, size, stageOnly).c.paths == f.c.paths + Registered(steps)
    decreases |steps|
  {
    if steps != [] {
      StepKeepsConserved(f, steps[0], size, stageOnly);
      var f' := Apply(f, steps[0], size, stageOnly);
      StepRegisters(f, steps[0], size, stageOnly);
      RunConserves(f', steps[1..], size, stageOnly);
      Regroup(f.c.paths, News(steps[0]), Registered(steps[1..]));
    }
  }

  /**
   Whatever the interleaving, and however many deliveries fail: the successful chunks in part
   order followed by the remainder are the registered files, each once and in order, and the
   parts are numbered from 1 without gaps.
   */
  lemma DeliveryConserves(steps: seq<Step>, size: Path -> nat, stageOnly: bool)
    requires Legal(START, steps, size, stageOnly)
    ensures var f := Exec(START, steps, size, stageOnly);
            && InBounds(f.c)
            && Flatten(f.log) + Remainder(f.c) == Registered(steps)
            && Numbered(f.log) && |f.log| == f.c.parts
  {
    RunConserves(START, steps, size, stageOnly);
    var f := Exec(START, steps, size, stageOnly);
    SplitAt(f.c.paths, f.c.flushStart);
    assert START.c.paths + Registered(steps) == Registered(steps);
  }

  lemma SplitAt(paths: seq<Path>, i: nat)
    requires i <= |paths|
    ensures paths[..i] + paths[i..] == paths
  {
  }
}
