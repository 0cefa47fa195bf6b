/**
 The process-wide registry of files that active rips still need (bot/ripstate.go). The download
 folder is keyed by content, so one file can be claimed by many rips and under several paths.
 Each mutex-protected section is one step: claiming a path takes two steps (the rip's own table,
 then the global count), and so does giving it back.
 */
module InUseRegistry {
  import opened FiniteSums

  type Path = string
  type Key = string       // a cleaned absolute path
  type Counts = map<string, nat>

  function Get(m: Counts, x: string): nat {
    if x in m then m[x] else 0
  }

  function Inc(m: Counts, x: string): Counts {
    m[x := Get(m, x) + 1]
  }

  /** One less, without keeping a zero entry; a no-op at zero. */
  function Dec(m: Counts, x: string): Counts {
    if Get(m, x) > 1 then m[x := m[x] - 1] else m - {x}
  }

  ghost predicate Positive(m: Counts) {
    forall x :: x in m ==> m[x] > 0
  }

  lemma DecThenInc(m: Counts, x: string)
    requires x in m && Positive(m)
    ensures Inc(Dec(m, x), x) == m && Positive(Dec(m, x))
  {
  }

  // ---- the global table ---------------------------------------------------

  class InUseFiles {
    const norm: Path -> Key
    var ref: Counts

    constructor (norm: Path -> Key)
      ensures ref == map[] && this.norm == norm
    {
      this.norm, ref := norm, map[];
    }

    method RetainInUse(p: Path)
      modifies this
      ensures ref == if p == "" then old(ref) else Inc(old(ref), norm(p))
    {
      if p == "" {
        return;
      }
      var k := norm(p);
      ref := ref[k := Get(ref, k) + 1];
    }

    method ReleaseInUse(p: Path) returns (remaining: nat)
      requires Positive(ref)
      modifies this
      ensures Positive(ref)
      ensures ref == if p == "" then old(ref) else Dec(old(ref), norm(p))
      ensures remaining == if p == "" then 0 else Get(ref, norm(p))
    {
      if p == "" {
        return 0;
      }
      var k := norm(p);
      if Get(ref, k) > 0 {
        ref := ref[k := ref[k] - 1];
        if ref[k] == 0 {
          ref := ref - {k};
          return 0;
        }
        return ref[k];
      }
      return 0;
    }

    method IsInUse(p: Path) returns (b: bool)
      ensures b == (p != "" && Get(ref, norm(p)) > 0)
    {
      if p == "" {
        return false;
      }
      return Get(ref, norm(p)) > 0;
    }

    method AnyInUse() returns (b: bool)
      ensures b <==> ref != map[]
    {
      assert ref != map[] ==> exists k :: k in ref;
      return |ref| > 0;
    }
  }

  // ---- claims on a file ---------------------------------------------------

  ghost function Naming(m: Counts, k: Key, norm: Path -> Key): Counts {
    map p | p in m && norm(p) == k :: m[p]
  }

  /** How many of the counted paths name the file k. */
  ghost function Weight(m: Counts, k: Key, norm: Path -> Key): nat {
    Sum(Naming(m, k, norm))
  }

  lemma WeightInc(m: Counts, p: Path, k: Key, norm: Path -> Key)
    ensures Weight(Inc(m, p), k, norm) == Weight(m, k, norm) + if norm(p) == k then 1 else 0
  {
    if norm(p) == k {
      assert Naming(Inc(m, p), k, norm) == Naming(m, k, norm)[p := Get(m, p) + 1];
      SumUpdate(Naming(m, k, norm), p, Get(m, p) + 1);
    } else {
      assert Naming(Inc(m, p), k, norm) == Naming(m, k, norm);
    }
  }

  lemma WeightDec(m: Counts, p: Path, k: Key, norm: Path -> Key)
    requires p in m && Positive(m)
    ensures Weight(Dec(m, p), k, norm) + (if norm(p) == k then 1 else 0) == Weight(m, k, norm)
  {
    DecThenInc(m, p);
    WeightInc(Dec(m, p), p, k, norm);
  }

  /** The count of a file exceeds a table's claims on it by what everybody else claims. */
  ghost predicate Covers(ref: Counts, held: Counts, norm: Path -> Key) {
    forall k :: Weight(held, k, norm) <= Get(ref, k)
  }

  lemma TakeUp(ref: Counts, held: Counts, p: Path, norm: Path -> Key)
    requires Covers(ref, held, norm)
    ensures Covers(Inc(ref, norm(p)), Inc(held, p), norm)
    ensures forall k :: Get(Inc(ref, norm(p)), k) - Weight(Inc(held, p), k, norm) == Get(ref, k) - Weight(held, k, norm)
  {
    forall k
      ensures Weight(Inc(held, p), k, norm) <= Get(Inc(ref, norm(p)), k)
      ensures Get(Inc(ref, norm(p)), k) - Weight(Inc(held, p), k, norm) == Get(ref, k) - Weight(held, k, norm)
    {
      WeightInc(held, p, k, norm);
      assert Weight(held, k, norm) <= Get(ref, k);
    }
  }

  lemma GiveBack(ref: Counts, held: Counts, p: Path, norm: Path -> Key)
    requires Positive(held) && p in held && Covers(ref, held, norm)
    ensures Get(ref, norm(p)) > 0
    ensures Covers(Dec(ref, norm(p)), Dec(held, p), norm)
    ensures forall k :: Get(Dec(ref, norm(p)), k) - Weight(Dec(held, p), k, norm) == Get(ref, k) - Weight(held, k, norm)
  {
    forall k
      ensures Weight(Dec(held, p), k, norm) <= Get(Dec(ref, norm(p)), k)
      ensures Get(Dec(ref, norm(p)), k) - Weight(Dec(held, p), k, norm) == Get(ref, k) - Weight(held, k, norm)
    {
      WeightDec(held, p, k, norm);
      assert Weight(held, k, norm) <= Get(ref, k);
    }
    WeightDec(held, p, norm(p), norm);
    assert Weight(held, norm(p), norm) <= Get(ref, norm(p));
  }

  lemma WeightZero(m: Counts, norm: Path -> Key)
    requires Positive(m)
    ensures m == map[] <==> forall k :: Weight(m, k, norm) == 0
  {
    if m == map[] {
      forall k ensures Weight(m, k, norm) == 0 {
        assert Naming(m, k, norm) == map[];
      }
    } else {
      var p :| p in m;
      SumZero(Naming(m, norm(p), norm));
      assert p in Naming(m, norm(p), norm) && Weight(m, norm(p), norm) != 0;
    }
  }

  /** The entries of two tables together. */
  function Merged(a: Counts, b: Counts): Counts {
    map p | p in a.Keys + b.Keys :: Get(a, p) + Get(b, p)
  }

  lemma {:induction false} WeightMerged(a: Counts, b: Counts, k: Key, norm: Path -> Key)
    ensures Weight(Merged(a, b), k, norm) == Weight(a, k, norm) + Weight(b, k, norm)
    decreases |b|
  {
    if b == map[] {
      assert Merged(a, b) == a;
      assert Naming(b, k, norm) == map[];
    } else {
      var p :| p in b;
      WeightMerged(a, b - {p}, k, norm);
      MergedPick(a, b, p);
      WeightSet(b - {p}, p, b[p], k, norm);
      WeightSet(Merged(a, b - {p}), p, Get(a, p) + b[p], k, norm);
    }
  }

  lemma MergedPick(a: Counts, b: Counts, p: Path)
    requires p in b
    ensures (b - {p})[p := b[p]] == b
    ensures Merged(a, b - {p})[p := Get(a, p) + b[p]] == Merged(a, b)
    ensures Get(Merged(a, b - {p}), p) == Get(a, p)
  {
  }

  lemma WeightSet(m: Counts, p: Path, v: nat, k: Key, norm: Path -> Key)
    ensures Weight(m[p := v], k, norm) + (if norm(p) == k then Get(m, p) else 0) == Weight(m, k, norm) + if norm(p) == k then v else 0
  {
    if norm(p) == k {
      assert Naming(m[p := v], k, norm) == Naming(m, k, norm)[p := v];
      SumUpdate(Naming(m, k, norm), p, v);
    } else {
      assert Naming(m[p := v], k, norm) == Naming(m, k, norm);
    }
  }

  // ---- all rips together --------------------------------------------------

  datatype Rip = Rip(
    held: Counts,          // the rip's own table
    retaining: Counts,     // entered there, global count not raised yet
    releasing: Counts)     // taken out there, global count not lowered yet

  datatype Sys = Sys(
    ref: Counts,
    rips: map<int, Rip>,
    files: set<Key>,
    inProgress: bool,      // the bot's own flag, which the purge looks at as well
    missed: Counts)        // history: releases that found a count of zero and left it there

  /** The half-operations of one rip. */
  datatype Op =
    | RetainHeld(p: Path)
    | RetainRef(p: Path)
    | ReleaseHeld(p: Path)
    | ReleaseRef(p: Path)
    | ReleaseAll

  datatype Step =
    | Register(r: int)
    | Do(r: int, op: Op)
    | Write(k: Key)
    | Unlink(k: Key)         // a deleter that found the file not in use
    | Purge                  // wipes the folders once nothing is in use
    | SetInProgress(on: bool)

  const NEW_RIP := Rip(map[], map[], map[])
  const START := Sys(map[], map[], {}, false, map[])

  predicate OpEnabled(c: Rip, op: Op) {
    match op
    case RetainHeld(p) => p != ""
    case RetainRef(p) => p in c.retaining
    case ReleaseHeld(p) => p in c.held
    case ReleaseRef(p) => p in c.releasing
    case ReleaseAll => true
  }

  function OpOnRip(c: Rip, op: Op): Rip
    requires OpEnabled(c, op)
  {
    match op
    case RetainHeld(p) => c.(held := Inc(c.held, p), retaining := Inc(c.retaining, p))
    case RetainRef(p) => c.(retaining := Dec(c.retaining, p))
    case ReleaseHeld(p) => c.(held := Dec(c.held, p), releasing := Inc(c.releasing, p))
    case ReleaseRef(p) => c.(releasing := Dec(c.releasing, p))
    case ReleaseAll => c.(held := map[], releasing := Merged(c.releasing, c.held))
  }

  function OpOnRef(ref: Counts, op: Op, norm: Path -> Key): Counts {
    match op
    case RetainRef(p) => Inc(ref, norm(p))
    case ReleaseRef(p) => Dec(ref, norm(p))
    case _ => ref
  }

  function OpOnMissed(missed: Counts, ref: Counts, op: Op, norm: Path -> Key): Counts {
    if op.ReleaseRef? && Get(ref, norm(op.p)) == 0 then Inc(missed, norm(op.p)) else missed
  }

  predicate Enabled(s: Sys, step: Step) {
    match step
    case Register(r) => r !in s.rips
    case Do(r, op) => r in s.rips && OpEnabled(s.rips[r], op)
    case Write(_) => true
    case Unlink(k) => Get(s.ref, k) == 0
    case Purge => !s.inProgress && s.ref == map[]
    case SetInProgress(_) => true
  }

  function Apply(s: Sys, step: Step, norm: Path -> Key): Sys
    requires Enabled(s, step)
  {
    match step
    case Register(r) => s.(rips := s.rips[r := NEW_RIP])
    case Do(r, op) =>
      s.(rips := s.rips[r := OpOnRip(s.rips[r], op)], ref := OpOnRef(s.ref, op, norm), missed := OpOnMissed(s.missed, s.ref, op, norm))
    case Write(k) => s.(files := s.files + {k})
    case Unlink(k) => s.(files := s.files - {k})
    case Purge => s.(files := {})
    case SetInProgress(on) => s.(inProgress := on)
  }

  /** What a rip still owes the global count, and what the global count still owes the rip. */
  ghost function Up(c: Rip, k: Key, norm: Path -> Key): nat {
    Weight(c.held, k, norm) + Weight(c.releasing, k, norm)
  }

  ghost function Down(c: Rip, k: Key, norm: Path -> Key): nat {
    Weight(c.retaining, k, norm)
  }

  ghost function UpMap(rips: map<int, Rip>, k: Key, norm: Path -> Key): map<int, nat> {
    map r | r in rips :: Up(rips[r], k, norm)
  }

  ghost function DownMap(rips: map<int, Rip>, k: Key, norm: Path -> Key): map<int, nat> {
    map r | r in rips :: Down(rips[r], k, norm)
  }

  ghost predicate AllPositive(c: Rip) {
    Positive(c.held) && Positive(c.retaining) && Positive(c.releasing)
  }

  /** The count of a file, as the sum of what all rips hold and release without what they are still registering. */
  ghost predicate AccountedAt(s: Sys, k: Key, norm: Path -> Key) {
    Get(s.ref, k) + Sum(DownMap(s.rips, k, norm)) == Sum(UpMap(s.rips, k, norm)) + Get(s.missed, k)
  }

  ghost predicate Accounted(s: Sys, norm: Path -> Key) {
    && Positive(s.ref) && Positive(s.missed)
    && (forall r :: r in s.rips ==> AllPositive(s.rips[r]))
    && (forall k :: AccountedAt(s, k, norm))
  }

  lemma MapsUpdate(rips: map<int, Rip>, r: int, c: Rip, k: Key, norm: Path -> Key)
    ensures Sum(UpMap(rips[r := c], k, norm)) + (if r in rips then Up(rips[r], k, norm) else 0) == Sum(UpMap(rips, k, norm)) + Up(c, k, norm)
    ensures Sum(DownMap(rips[r := c], k, norm)) + (if r in rips then Down(rips[r], k, norm) else 0) == Sum(DownMap(rips, k, norm)) + Down(c, k, norm)
  {
    assert UpMap(rips[r := c], k, norm) == UpMap(rips, k, norm)[r := Up(c, k, norm)];
    assert DownMap(rips[r := c], k, norm) == DownMap(rips, k, norm)[r := Down(c, k, norm)];
    SumUpdate(UpMap(rips, k, norm), r, Up(c, k, norm));
    SumUpdate(DownMap(rips, k, norm), r, Down(c, k, norm));
  }

  lemma RetainMoves(c: Rip, op: Op, k: Key, norm: Path -> Key)
    requires AllPositive(c) && OpEnabled(c, op) && (op.RetainHeld? || op.RetainRef?)
    ensures var c' := OpOnRip(c, op);
            && AllPositive(c')
            && Up(c', k, norm) == Up(c, k, norm) + (if op.RetainHeld? && norm(op.p) == k then 1 else 0)
            && Down(c', k, norm) + (if op.RetainRef? && norm(op.p) == k then 1 else 0)
               == Down(c, k, norm) + (if op.RetainHeld? && norm(op.p) == k then 1 else 0)
  {
    if op.RetainHeld? {
      WeightInc(c.held, op.p, k, norm);
      WeightInc(c.retaining, op.p, k, norm);
    } else {
      WeightDec(c.retaining, op.p, k, norm);
    }
  }

  lemma ReleaseMoves(c: Rip, op: Op, k: Key, norm: Path -> Key)
    requires AllPositive(c) && OpEnabled(c, op) && (op.ReleaseHeld? || op.ReleaseRef?)
    ensures var c' := OpOnRip(c, op);
            && AllPositive(c')
            && Up(c', k, norm) + (if op.ReleaseRef? && norm(op.p) == k then 1 else 0) == Up(c, k, norm)
            && Down(c', k, norm) == Down(c, k, norm)
  {
    if op.ReleaseHeld? {
      WeightDec(c.held, op.p, k, norm);
      WeightInc(c.releasing, op.p, k, norm);
    } else {
      WeightDec(c.releasing, op.p, k, norm);
    }
  }

  lemma ReleaseAllMoves(c: Rip, k: Key, norm: Path -> Key)
    requires AllPositive(c)
    ensures var c' := OpOnRip(c, ReleaseAll);
            AllPositive(c') && Up(c', k, norm) == Up(c, k, norm) && Down(c', k, norm) == Down(c, k, norm)
  {
    WeightMerged(c.releasing, c.held, k, norm);
    WeightZero(map[], norm);
  }

  /** What one half-operation does to a rip's side of the account. */
  lemma OpMoves(c: Rip, op: Op, k: Key, norm: Path -> Key)
    requires AllPositive(c) && OpEnabled(c, op)
    ensures var c' := OpOnRip(c, op);
            && AllPositive(c')
            && Up(c', k, norm) + (if op.ReleaseRef? && norm(op.p) == k then 1 else 0)
               == Up(c, k, norm) + (if op.RetainHeld? && norm(op.p) == k then 1 else 0)
            && Down(c', k, norm) + (if op.RetainRef? && norm(op.p) == k then 1 else 0)
               == Down(c, k, norm) + (if op.RetainHeld? && norm(op.p) == k then 1 else 0)
  {
    if op.RetainHeld? || op.RetainRef? {
      RetainMoves(c, op, k, norm);
    } else if op.ReleaseHeld? || op.ReleaseRef? {
      ReleaseMoves(c, op, k, norm);
    } else {
      ReleaseAllMoves(c, k, norm);
    }
  }

  lemma RegisterKeepsAccountedAt(s: Sys, r: int, k: Key, norm: Path -> Key)
    requires AccountedAt(s, k, norm) && Enabled(s, Register(r))
    ensures AccountedAt(Apply(s, Register(r), norm), k, norm)
  {
    MapsUpdate(s.rips, r, NEW_RIP, k, norm);
    WeightZero(map[], norm);
  }

  /** What the count and the missed releases of a file do at a half-operation. */
  lemma RefMoves(s: Sys, op: Op, k: Key, norm: Path -> Key)
    requires Positive(s.ref)
    ensures Get(OpOnRef(s.ref, op, norm), k) + (if op.ReleaseRef? && norm(op.p) == k then 1 else 0) + Get(s.missed, k)
            == Get(s.ref, k) + (if op.RetainRef? && norm(op.p) == k then 1 else 0) + Get(OpOnMissed(s.missed, s.ref, op, norm), k)
  {
  }

  lemma DoKeepsAccountedAt(s: Sys, r: int, op: Op, k: Key, norm: Path -> Key)
    requires AccountedAt(s, k, norm) && Positive(s.ref) && Enabled(s, Do(r, op)) && AllPositive(s.rips[r])
    ensures AccountedAt(Apply(s, Do(r, op), norm), k, norm)
  {
    MapsUpdate(s.rips, r, OpOnRip(s.rips[r], op), k, norm);
    OpMoves(s.rips[r], op, k, norm);
    RefMoves(s, op, k, norm);
  }

  lemma StepKeepsAccountedAt(s: Sys, step: Step, k: Key, norm: Path -> Key)
    requires Accounted(s, norm) && Enabled(s, step)
    ensures AccountedAt(Apply(s, step, norm), k, norm)
  {
    assert AccountedAt(s, k, norm);
    match step {
      case Register(r) => RegisterKeepsAccountedAt(s, r, k, norm);
      case Do(r, op) => DoKeepsAccountedAt(s, r, op, k, norm);
      case _ =>
    }
  }

  lemma StepKeepsAccounted(s: Sys, step: Step, norm: Path -> Key)
    requires Accounted(s, norm) && Enabled(s, step)
    ensures Accounted(Apply(s, step, norm), norm)
  {
    forall k ensures AccountedAt(Apply(s, step, norm), k, norm) {
      StepKeepsAccountedAt(s, step, k, norm);
    }
    if step.Do? {
      OpMoves(s.rips[step.r], step.op, "", norm);
    }
  }

  ghost predicate Legal(s: Sys, steps: seq<Step>, norm: Path -> Key)
    decreases |steps|
  {
    steps == [] || (Enabled(s, steps[0]) && Legal(Apply(s, steps[0], norm), steps[1..], norm))
  }

  ghost function Exec(s: Sys, steps: seq<Step>, norm: Path -> Key): Sys
    requires Legal(s, steps, norm)
    decreases |steps|
  {
    if steps == [] then s else Exec(Apply(s, steps[0], norm), steps[1..], norm)
  }

  lemma StartAccounted(norm: Path -> Key)
    ensures Accounted(START, norm)
  {
    forall k ensures AccountedAt(START, k, norm) {
      assert UpMap(START.rips, k, norm) == map[] && DownMap(START.rips, k, norm) == map[];
    }
  }

  lemma {:induction false} RunKeepsAccounted(s: Sys, steps: seq<Step>, norm: Path -> Key)
    requires Accounted(s, norm) && Legal(s, steps, norm)
    ensures Accounted(Exec(s, steps, norm), norm)
    decreases |steps|
  {
    if steps != [] {
      StepKeepsAccounted(s, steps[0], norm);
      RunKeepsAccounted(Apply(s, steps[0], norm), steps[1..], norm);
    }
  }

  // ---- what the count is, in every run ------------------------------------

  /** Any interleaving of any half-operations: the count is held plus releasing minus retaining plus missed. */
  lemma CountIsExact(steps: seq<Step>, k: Key, norm: Path -> Key)
    requires Legal(START, steps, norm)
    ensures AccountedAt(Exec(START, steps, norm), k, norm)
  {
    StartAccounted(norm);
    RunKeepsAccounted(START, steps, norm);
  }

  ghost predicate Quiet(s: Sys) {
    forall r :: r in s.rips ==> s.rips[r].retaining == map[] && s.rips[r].releasing == map[]
  }

  ghost function HeldMap(rips: map<int, Rip>, k: Key, norm: Path -> Key): map<int, nat> {
    map r | r in rips :: Weight(rips[r].held, k, norm)
  }

  lemma QuietAccount(s: Sys, k: Key, norm: Path -> Key)
    requires Accounted(s, norm) && Quiet(s)
    ensures Get(s.ref, k) == Sum(HeldMap(s.rips, k, norm)) + Get(s.missed, k)
  {
    WeightZero(map[], norm);
    forall r | r in s.rips ensures Up(s.rips[r], k, norm) == Weight(s.rips[r].held, k, norm) && Down(s.rips[r], k, norm) == 0 {
      assert s.rips[r].retaining == map[] && s.rips[r].releasing == map[];
    }
    assert UpMap(s.rips, k, norm) == HeldMap(s.rips, k, norm);
    SumZero(DownMap(s.rips, k, norm));
    assert AccountedAt(s, k, norm);
  }

  /** Between operations the count of a file is the sum of the rips' entries for it exactly when no release of it missed. */
  lemma CountIsSumOfHeldIff(steps: seq<Step>, k: Key, norm: Path -> Key)
    requires Legal(START, steps, norm) && Quiet(Exec(START, steps, norm))
    ensures var s := Exec(START, steps, norm);
            Get(s.ref, k) == Sum(HeldMap(s.rips, k, norm)) <==> k !in s.missed
  {
    StartAccounted(norm);
    RunKeepsAccounted(START, steps, norm);
    QuietAccount(Exec(START, steps, norm), k, norm);
  }

  /** The purge's own conditions, between operations: nothing in progress, no rip holds anything, no release missed. */
  lemma PurgeEnabledIff(steps: seq<Step>, norm: Path -> Key)
    requires Legal(START, steps, norm) && Quiet(Exec(START, steps, norm))
    ensures var s := Exec(START, steps, norm);
            Enabled(s, Purge) <==> !s.inProgress && (forall r :: r in s.rips ==> s.rips[r].held == map[]) && s.missed == map[]
  {
    StartAccounted(norm);
    RunKeepsAccounted(START, steps, norm);
    var s := Exec(START, steps, norm);
    EmptyIff(s, norm);
  }

  lemma EmptyIff(s: Sys, norm: Path -> Key)
    requires Accounted(s, norm) && Quiet(s)
    ensures s.ref == map[] <==> (forall r :: r in s.rips ==> s.rips[r].held == map[]) && s.missed == map[]
  {
    if s.ref == map[] {
      forall k ensures k !in s.missed {
        QuietAccount(s, k, norm);
      }
      forall r | r in s.rips ensures s.rips[r].held == map[] {
        NothingHeld(s, r, norm);
      }
    }
    if (forall r :: r in s.rips ==> s.rips[r].held == map[]) && s.missed == map[] {
      forall k ensures k !in s.ref {
        QuietAccount(s, k, norm);
        WeightZero(map[], norm);
        SumZero(HeldMap(s.rips, k, norm));
      }
    }
  }

  lemma NothingHeld(s: Sys, r: int, norm: Path -> Key)
    requires Accounted(s, norm) && Quiet(s) && s.ref == map[] && r in s.rips
    ensures s.rips[r].held == map[]
  {
    forall k ensures Weight(s.rips[r].held, k, norm) == 0 {
      QuietAccount(s, k, norm);
      SumZero(HeldMap(s.rips, k, norm));
      assert HeldMap(s.rips, k, norm)[r] == 0;
    }
    assert AllPositive(s.rips[r]);
    WeightZero(s.rips[r].held, norm);
  }

  /** A deleter gets a file exactly when the account of that file is empty. */
  lemma UnlinkEnabledIff(steps: seq<Step>, k: Key, norm: Path -> Key)
    requires Legal(START, steps, norm)
    ensures var s := Exec(START, steps, norm);
            Enabled(s, Unlink(k)) <==> Sum(UpMap(s.rips, k, norm)) + Get(s.missed, k) == Sum(DownMap(s.rips, k, norm))
  {
    CountIsExact(steps, k, norm);
  }

  /**
   What a missed release costs. If a rip takes a path back between the two halves of registering it, the
   global release finds nothing to lower and the late raise is never undone: every table is empty and
   nothing is under way, yet the file counts as in use and the purge is off for good. A launch loop
   waits for its tracks before it releases, and so never gets here (module LaunchLoops).
   */
  lemma UndrainedReleaseLeaks(p: Path, norm: Path -> Key)
    requires p != ""
    ensures var steps := [Register(0), Do(0, RetainHeld(p)), Do(0, ReleaseHeld(p)), Do(0, ReleaseRef(p)), Do(0, RetainRef(p))];
            && Legal(START, steps, norm)
            && Exec(START, steps, norm).rips == map[0 := NEW_RIP] && Exec(START, steps, norm).missed == map[norm(p) := 1]
            && !Enabled(Exec(START, steps, norm), Purge)
  {
    var steps := [Register(0), Do(0, RetainHeld(p)), Do(0, ReleaseHeld(p)), Do(0, ReleaseRef(p)), Do(0, RetainRef(p))];
    var s1 := Apply(START, steps[0], norm);
    var s2 := Apply(s1, steps[1], norm);
    var s3 := Apply(s2, steps[2], norm);
    var s4 := Apply(s3, steps[3], norm);
    var s5 := Apply(s4, steps[4], norm);
    assert s5.rips[0] == NEW_RIP && norm(p) in s5.ref;
    ExecCons(s4, steps[4], [], norm);
    ExecCons(s3, steps[3], [steps[4]], norm);
    ExecCons(s2, steps[2], [steps[3]] + [steps[4]], norm);
    ExecCons(s1, steps[1], [steps[2]] + ([steps[3]] + [steps[4]]), norm);
    ExecCons(START, steps[0], [steps[1]] + ([steps[2]] + ([steps[3]] + [steps[4]])), norm);
    assert steps == [steps[0]] + ([steps[1]] + ([steps[2]] + ([steps[3]] + [steps[4]])));
  }

  lemma ExecCons(s: Sys, step: Step, rest: seq<Step>, norm: Path -> Key)
    requires Enabled(s, step) && Legal(Apply(s, step, norm), rest, norm)
    ensures Legal(s, [step] + rest, norm) && Exec(s, [step] + rest, norm) == Exec(Apply(s, step, norm), rest, norm)
  {
    assert ([step] + rest)[1..] == rest;
  }
}
