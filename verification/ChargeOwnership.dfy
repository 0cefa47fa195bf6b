/**
 Who is responsible for an open charge. A charge is made inside an admission call and then travels: to the
 list of deferred jobs, to the jobs that came due, to a dispatch call, to the download queue, to a running
 rip (bot/admin_tasks.go, bot/restriction.go, bot/telegram_bot.go). Any number of calls run interleaved, act
 by act; module ChargePaths takes their paths from the code.
 */
module ChargeOwnership {
  import opened QuotaLedger
  import opened ChargeActs

  // ---- the system ---------------------------------------------------------

  /** A call in progress, or a rip: what it holds and what it will still do. */
  datatype Call = Call(held: set<ChargeId>, todo: seq<Act>)

  datatype Sys = Sys(st: Store, calls: map<int, Call>)

  datatype Step =
    | Begin(c: int, path: seq<Act>)
    | Do(c: int)
    | Return(c: int)
    | ReleaseDue(now: int)
    | Restart(rows: map<ChargeId, Charge>, file: seq<Job>, day: int)

  predicate Enabled(s: Sys, step: Step) {
    match step
    case Begin(c, path) => c !in s.calls && Discharges({}, path)
    case Do(c) => c in s.calls && s.calls[c].todo != [] && Possible(s.st, s.calls[c].todo[0])
    case Return(c) => c in s.calls && s.calls[c].todo == []
    case ReleaseDue(_) => true
    // The rows are what could be read; the file is some earlier or current version of the list, each charge in it once.
    case Restart(rows, file, _) =>
      && "" !in rows && rows.Keys <= s.st.used
      && (forall i :: 0 <= i < |file| && file[i].charge != "" ==> file[i].charge in s.st.used)
      && (forall i, k :: 0 <= i < k < |file| && file[i].charge == file[k].charge ==> file[i].charge == "")
  }

  function LiveOf(file: seq<Job>): set<ChargeId> {
    set i | 0 <= i < |file| && file[i].charge != "" :: file[i].charge
  }

  ghost function StoreAfter(s: Sys, step: Step): Store
    requires Enabled(s, step)
  {
    match step
    case Do(c) => After(s.st, s.calls[c].todo[0])
    case ReleaseDue(now) => s.st.(jobs := NotDue(s.st.jobs, now), due := s.st.due + Due(s.st.jobs, now))
    case Restart(rows, file, day) =>
      var charges := Restored(rows, LiveOf(file), day);
      Store(Ledger(TallyOf(charges), charges), file, [], [], s.st.used)
    case _ => s.st
  }

  function CallsAfter(s: Sys, step: Step): map<int, Call>
    requires Enabled(s, step)
  {
    match step
    case Begin(c, path) => s.calls[c := Call({}, path)]
    case Do(c) => s.calls[c := Call(HeldAfter(s.calls[c].held, s.calls[c].todo[0]), s.calls[c].todo[1..])]
    case Return(c) => s.calls - {c}
    case ReleaseDue(_) => s.calls
    case Restart(_, _, _) => map[]
  }

  ghost function Apply(s: Sys, step: Step): Sys
    requires Enabled(s, step)
  {
    Sys(StoreAfter(s, step), CallsAfter(s, step))
  }

  /** How often id occurs among the charges of jobs. */
  ghost function Times(jobs: seq<Job>, id: ChargeId): nat {
    if jobs == [] then 0 else (if jobs[0].charge == id then 1 else 0) + Times(jobs[1..], id)
  }

  ghost function Waiting(st: Store, id: ChargeId): nat {
    Times(st.jobs, id) + Times(st.due, id) + multiset(st.queue)[id]
  }

  function CallsWith(calls: map<int, Call>, id: ChargeId): set<int> {
    set c | c in calls && id in calls[c].held
  }

  /** The number of holders of a charge. */
  ghost function Holders(s: Sys, id: ChargeId): nat {
    |CallsWith(s.calls, id)| + Waiting(s.st, id)
  }

  /** Each charge has at most one holder, and an open one has exactly one. */
  ghost predicate OwnedAt(s: Sys, id: ChargeId) {
    && (id != "" ==> Holders(s, id) <= if id in s.st.used then 1 else 0)
    && (IsOpen(s.st.mem, id) ==> id != "" && Holders(s, id) == 1)
  }

  predicate Keyed(st: Store) {
    "" !in st.used && st.mem.charges.Keys <= st.used
  }

  ghost predicate Owned(s: Sys) {
    && Keyed(s.st)
    && (forall c :: c in s.calls ==> Discharges(s.calls[c].held, s.calls[c].todo))
    && forall id :: OwnedAt(s, id)
  }

  // ---- bookkeeping of the job lists ---------------------------------------

  lemma {:induction false} TimesConcat(a: seq<Job>, b: seq<Job>, id: ChargeId)
    ensures Times(a + b, id) == Times(a, id) + Times(b, id)
  {
    if a == [] {
      assert a + b == b;
    } else {
      TimesConcat(a[1..], b, id);
      assert (a + b)[1..] == a[1..] + b;
    }
  }

  lemma TimesOne(j: Job, id: ChargeId)
    ensures Times([j], id) == if j.charge == id then 1 else 0
  {
  }

  lemma TimesInserted(jobs: seq<Job>, j: Job, donor: bool, id: ChargeId)
    ensures Times(Inserted(jobs, j, donor), id) == Times(jobs, id) + if j.charge == id then 1 else 0
  {
    TimesOne(j, id);
    if donor && |jobs| > 0 {
      var front, last := jobs[..|jobs| - 1], jobs[|jobs| - 1..];
      assert jobs == front + last;
      TimesConcat(front, last, id);
      TimesConcat(front, [j], id);
      TimesConcat(front + [j], last, id);
    } else {
      TimesConcat(jobs, [j], id);
    }
  }

  lemma TimesRemoved(jobs: seq<Job>, i: nat, id: ChargeId)
    requires i < |jobs|
    ensures Times(jobs[..i] + jobs[i + 1..], id) + (if jobs[i].charge == id then 1 else 0) == Times(jobs, id)
  {
    assert jobs == jobs[..i] + ([jobs[i]] + jobs[i + 1..]);
    TimesOne(jobs[i], id);
    TimesConcat(jobs[..i], [jobs[i]] + jobs[i + 1..], id);
    TimesConcat([jobs[i]], jobs[i + 1..], id);
    TimesConcat(jobs[..i], jobs[i + 1..], id);
  }

  lemma {:induction false} TimesSplit(jobs: seq<Job>, now: int, id: ChargeId)
    ensures Times(Due(jobs, now), id) + Times(NotDue(jobs, now), id) == Times(jobs, id)
  {
    if jobs != [] {
      TimesSplit(jobs[1..], now, id);
      TimesOne(jobs[0], id);
      if jobs[0].releaseAt > now {
        TimesConcat([jobs[0]], NotDue(jobs[1..], now), id);
        assert Due(jobs, now) == Due(jobs[1..], now);
      } else {
        TimesConcat([jobs[0]], Due(jobs[1..], now), id);
        assert NotDue(jobs, now) == NotDue(jobs[1..], now);
      }
    }
  }

  lemma {:induction false} TimesDistinct(jobs: seq<Job>, id: ChargeId)
    requires forall i, k :: 0 <= i < k < |jobs| && jobs[i].charge == jobs[k].charge ==> jobs[i].charge == ""
    requires id != ""
    ensures Times(jobs, id) == if exists i :: 0 <= i < |jobs| && jobs[i].charge == id then 1 else 0
  {
    if jobs != [] {
      TimesDistinct(jobs[1..], id);
      if exists i :: 0 <= i < |jobs| && jobs[i].charge == id {
        var i :| 0 <= i < |jobs| && jobs[i].charge == id;
        assert i > 0 ==> jobs[1..][i - 1].charge == id;
      }
    }
  }

  lemma QueueRemoved(queue: seq<ChargeId>, i: nat, id: ChargeId)
    requires i < |queue|
    ensures multiset(queue[..i] + queue[i + 1..])[id] + (if queue[i] == id then 1 else 0) == multiset(queue)[id]
  {
    assert queue == queue[..i] + [queue[i]] + queue[i + 1..];
  }

  // ---- one step -----------------------------------------------------------

  lemma CallsUpdate(calls: map<int, Call>, c: int, call: Call, id: ChargeId)
    ensures |CallsWith(calls[c := call], id)| + (if c in calls && id in calls[c].held then 1 else 0)
            == |CallsWith(calls, id)| + if id in call.held then 1 else 0
  {
    var rest := CallsWith(calls, id) - {c};
    assert CallsWith(calls[c := call], id) == if id in call.held then rest + {c} else rest;
    assert CallsWith(calls, id) == if c in calls && id in calls[c].held then rest + {c} else rest;
  }

  lemma QueueAdded(queue: seq<ChargeId>, x: ChargeId, id: ChargeId)
    ensures multiset(queue + [x])[id] == multiset(queue)[id] + if x == id then 1 else 0
  {
  }

  /** What an act moves between its call and the lists. */
  lemma ActMoves(st: Store, a: Act, id: ChargeId)
    requires Possible(st, a) && id != ""
    ensures Waiting(After(st, a), id) + (if id in Takes(a) && !a.Make? then 1 else 0)
            == Waiting(st, id) + (if id in Gives(a) && !a.Settle? then 1 else 0)
  {
    match a {
      case Enqueue(x) => QueueAdded(st.queue, x, id);
      case Defer(j, donor) => TimesInserted(st.jobs, j, donor, id);
      case TakeJob(i, _) => TimesRemoved(st.jobs, i, id);
      case TakeDue(_) => TimesOne(st.due[0], id);
      case TakeQueued(i, _) => QueueRemoved(st.queue, i, id);
      case _ =>
    }
  }

  /** One act of one call: a holder is gained by a charge and lost by a settlement; anything else moves a charge along. */
  lemma DoMoves(s: Sys, c: int, id: ChargeId)
    requires Enabled(s, Do(c)) && id != "" && Fits(s.calls[c].held, s.calls[c].todo[0])
    ensures var a := s.calls[c].todo[0];
            Holders(Apply(s, Do(c)), id) + (if a.Settle? && a.id == id then 1 else 0)
            == Holders(s, id) + (if a.Make? && a.id == id then 1 else 0)
  {
    var a := s.calls[c].todo[0];
    ActMoves(s.st, a, id);
    CallsUpdate(s.calls, c, CallsAfter(s, Do(c))[c], id);
    assert Takes(a) !! s.calls[c].held && Gives(a) <= s.calls[c].held;
  }

  /** An act leaves a closed charge as it is, opens only what it charges, and closes what it settles. */
  lemma ActOnCharge(st: Store, a: Act, id: ChargeId)
    requires Possible(st, a) && id != "" && st.mem.charges.Keys <= st.used
    ensures id in st.mem.charges && st.mem.charges[id].state != Open ==>
              id in After(st, a).mem.charges && After(st, a).mem.charges[id] == st.mem.charges[id]
    ensures IsOpen(After(st, a).mem, id) ==> IsOpen(st.mem, id) || (a.Make? && a.id == id)
    ensures a.Settle? && a.id == id ==> !IsOpen(After(st, a).mem, id)
    ensures After(st, a).mem.charges.Keys <= After(st, a).used && st.used <= After(st, a).used
  {
  }

  lemma DoKeepsOwnedAt(s: Sys, c: int, id: ChargeId)
    requires OwnedAt(s, id) && Keyed(s.st) && id != ""
    requires Enabled(s, Do(c)) && Fits(s.calls[c].held, s.calls[c].todo[0])
    ensures OwnedAt(Apply(s, Do(c)), id)
  {
    DoMoves(s, c, id);
    ActOnCharge(s.st, s.calls[c].todo[0], id);
  }

  /** A call can only return with empty hands, so its return takes no claim away. */
  lemma ReturnDropsNothing(s: Sys, c: int, id: ChargeId)
    requires Owned(s) && Enabled(s, Return(c))
    ensures s.calls[c].held == {} && Holders(Apply(s, Return(c)), id) == Holders(s, id)
  {
    assert Discharges(s.calls[c].held, s.calls[c].todo);
    assert CallsWith(s.calls - {c}, id) == CallsWith(s.calls, id);
  }

  lemma OtherMoves(s: Sys, step: Step, id: ChargeId)
    requires Owned(s) && Enabled(s, step) && !step.Do? && !step.Restart?
    ensures Holders(Apply(s, step), id) == Holders(s, id)
  {
    match step {
      case Begin(c, path) => CallsUpdate(s.calls, c, Call({}, path), id);
      case Return(c) => ReturnDropsNothing(s, c, id);
      case ReleaseDue(now) =>
        TimesSplit(s.st.jobs, now, id);
        TimesConcat(s.st.due, Due(s.st.jobs, now), id);
    }
  }

  lemma StepKeepsOwnedAt(s: Sys, step: Step, id: ChargeId)
    requires Owned(s) && Enabled(s, step)
    ensures OwnedAt(Apply(s, step), id)
  {
    assert OwnedAt(s, id);
    if id == "" {
      NotCharged(s, step);
    } else if step.Restart? {
      TimesDistinct(step.file, id);
      assert CallsWith(map[], id) == {};
    } else if step.Do? {
      assert Discharges(s.calls[step.c].held, s.calls[step.c].todo);
      DoKeepsOwnedAt(s, step.c, id);
    } else {
      OtherMoves(s, step, id);
    }
  }

  lemma NotCharged(s: Sys, step: Step)
    requires Keyed(s.st) && Enabled(s, step)
    ensures "" !in StoreAfter(s, step).mem.charges && Keyed(StoreAfter(s, step))
  {
  }

  lemma StepKeepsOwned(s: Sys, step: Step)
    requires Owned(s) && Enabled(s, step)
    ensures Owned(Apply(s, step))
  {
    NotCharged(s, step);
    forall id ensures OwnedAt(Apply(s, step), id) {
      StepKeepsOwnedAt(s, step, id);
    }
    if step.Do? {
      assert Discharges(s.calls[step.c].held, s.calls[step.c].todo);
    }
  }

  // ---- every run ----------------------------------------------------------

  ghost predicate Legal(s: Sys, steps: seq<Step>)
    decreases |steps|
  {
    steps == [] || (Enabled(s, steps[0]) && Legal(Apply(s, steps[0]), steps[1..]))
  }

  ghost function Exec(s: Sys, steps: seq<Step>): Sys
    requires Legal(s, steps)
    decreases |steps|
  {
    if steps == [] then s else Exec(Apply(s, steps[0]), steps[1..])
  }

  const START := Sys(Store(Ledger(map[], map[]), [], [], [], {}), map[])

  lemma {:induction false} RunKeepsOwned(s: Sys, steps: seq<Step>)
    requires Owned(s) && Legal(s, steps)
    ensures Owned(Exec(s, steps))
    decreases |steps|
  {
    if steps != [] {
      StepKeepsOwned(s, steps[0]);
      RunKeepsOwned(Apply(s, steps[0]), steps[1..]);
    }
  }

  lemma StartOwned()
    ensures Owned(START)
  {
    forall id ensures OwnedAt(START, id) {
      assert CallsWith(START.calls, id) == {};
    }
  }

  /** In every reachable state an open charge has exactly one holder, and no charge has two. */
  lemma EveryOpenChargeHasOneHolder(steps: seq<Step>, id: ChargeId)
    requires Legal(START, steps) && id != ""
    ensures Holders(Exec(START, steps), id) <= 1
    ensures IsOpen(Exec(START, steps).st.mem, id) ==> Holders(Exec(START, steps), id) == 1
  {
    StartOwned();
    RunKeepsOwned(START, steps);
    assert OwnedAt(Exec(START, steps), id);
  }

  /** Whatever step takes the last claim on a charge away, restart included, leaves it closed. */
  lemma LosingTheHolderCloses(steps: seq<Step>, step: Step, id: ChargeId)
    requires Legal(START, steps) && Enabled(Exec(START, steps), step)
    requires Holders(Apply(Exec(START, steps), step), id) == 0
    ensures !IsOpen(Apply(Exec(START, steps), step).st.mem, id)
  {
    StartOwned();
    RunKeepsOwned(START, steps);
    StepKeepsOwned(Exec(START, steps), step);
    assert OwnedAt(Apply(Exec(START, steps), step), id);
  }

  /** Within one process a closed charge never changes again: each is finalized at most once. */
  lemma {:induction false} FinalizedAtMostOnce(s: Sys, steps: seq<Step>, id: ChargeId)
    requires Keyed(s.st) && Legal(s, steps) && id in s.st.mem.charges && s.st.mem.charges[id].state != Open
    requires forall i :: 0 <= i < |steps| ==> !steps[i].Restart?
    ensures id in Exec(s, steps).st.mem.charges && Exec(s, steps).st.mem.charges[id] == s.st.mem.charges[id]
    decreases |steps|
  {
    if steps != [] {
      NotCharged(s, steps[0]);
      if steps[0].Do? {
        ActOnCharge(s.st, s.calls[steps[0].c].todo[0], id);
      }
      FinalizedAtMostOnce(Apply(s, steps[0]), steps[1..], id);
    }
  }
}
