/**
 The durable mirror of the quota (bot/catalog/quota.go) next to the authoritative tables of
 bot/quota.go, over every run of admissions, finalizations, delayed or lost writes, day changes,
 prunes and crashes. Memory and rows change in separate steps: a write that is owed may land at
 any later moment of the same process, in any order, or never.
 */
module QuotaRecovery {
  import opened QuotaLedger

  // ---- rows ---------------------------------------------------------------

  type Rows = map<ChargeId, Charge>

  function RowInserted(rows: Rows, id: ChargeId, key: Key): Rows {
    if id in rows then rows else rows[id := Charge(key, Open)]
  }

  function RowFinalized(rows: Rows, id: ChargeId, to: State): Rows {
    if id in rows && rows[id].state == Open then rows[id := Charge(rows[id].key, to)] else rows
  }

  function RowsFrom(rows: Rows, day: int): Rows {
    map id | id in rows && rows[id].key.day >= day :: rows[id]
  }

  /** The quota_charges table. A disabled catalog ignores writes and loads nothing. */
  class QuotaRows {
    const enabled: bool
    var rows: Rows

    constructor (enabled: bool)
      ensures this.enabled == enabled && rows == map[]
    {
      this.enabled, rows := enabled, map[];
    }

    method InsertCharge(id: ChargeId, key: Key)
      modifies this
      ensures rows == if enabled then RowInserted(old(rows), id, key) else old(rows)
    {
      if enabled && id !in rows {
        rows := rows[id := Charge(key, Open)];
      }
    }

    method Finalize(id: ChargeId, to: State)
      modifies this
      ensures rows == if enabled then RowFinalized(old(rows), id, to) else old(rows)
    {
      if enabled && id in rows && rows[id].state == Open {
        rows := rows[id := rows[id].(state := to)];
      }
    }

    method PruneBefore(day: int)
      modifies this
      ensures rows == if enabled then RowsFrom(old(rows), day) else old(rows)
    {
      if !enabled {
        return;
      }
      var ids := rows.Keys;
      while ids != {}
        invariant ids <= old(rows).Keys
        invariant rows == map id | id in old(rows) && (id in ids || old(rows)[id].key.day >= day) :: old(rows)[id]
        decreases ids
      {
        var id :| id in ids;
        ids := ids - {id};
        if rows[id].key.day < day {
          rows := rows - {id};
        }
      }
    }

    /** The rows of one quota-day, each exactly once: what LoadBoot of the ledger consumes. */
    method LoadDay(day: int) returns (out: seq<(ChargeId, Charge)>)
      ensures forall i, j :: 0 <= i < j < |out| ==> out[i].0 != out[j].0
      ensures forall i :: 0 <= i < |out| ==> out[i].0 in rows && rows[out[i].0] == out[i].1 && out[i].1.key.day == day
      ensures enabled ==> forall id :: id in rows && rows[id].key.day == day ==> exists i :: 0 <= i < |out| && out[i].0 == id
      ensures !enabled ==> out == []
    {
      out := [];
      if !enabled {
        return;
      }
      var ids := rows.Keys;
      while ids != {}
        invariant ids <= rows.Keys
        invariant forall i :: 0 <= i < |out| ==> out[i].0 in rows.Keys - ids && rows[out[i].0] == out[i].1 && out[i].1.key.day == day
        invariant forall i, j :: 0 <= i < j < |out| ==> out[i].0 != out[j].0
        invariant forall id :: id in rows.Keys - ids && rows[id].key.day == day ==> exists i :: 0 <= i < |out| && out[i].0 == id
        decreases ids
      {
        var id :| id in ids;
        ids := ids - {id};
        ghost var before := out;
        if rows[id].key.day == day {
          out := out + [(id, rows[id])];
          assert out[|before|].0 == id;
        }
        assert forall i :: 0 <= i < |before| ==> out[i] == before[i];
      }
    }
  }

  // ---- the system ---------------------------------------------------------

  datatype Sys = Sys(
    today: int,                         // the current quota-day
    mem: Ledger,
    rows: Rows,
    inserts: map<ChargeId, Key>,        // inserts that have not reached the table
    finals: set<(ChargeId, State)>,     // finalizations that have not reached the table
    used: set<ChargeId>)                // ids ever generated

  datatype Step =
    | Submit(id: ChargeId, key: Key, limit: nat)
    | InsertLands(id: ChargeId)
    | InsertLost(id: ChargeId)
    | Finalize(id: ChargeId, to: State)
    | FinalLands(id: ChargeId, to: State)
    | FinalLost(id: ChargeId, to: State)
    | NewDay(day: int)
    | PruneMemory
    | PruneRows(day: int)
    | Crash(day: int, live: set<ChargeId>, loads: bool)   // live: charges named by the schedule file; loads: boot could read the rows

  const START := Sys(0, Ledger(map[], map[]), map[], map[], {}, {})

  /** A charge carries a quota-day read earlier, so it may be behind the clock but not ahead of it. */
  predicate Enabled(s: Sys, step: Step) {
    match step
    case Submit(id, key, limit) => id != "" && id !in s.used && key.day <= s.today
    case InsertLands(id) => id in s.inserts
    case InsertLost(id) => id in s.inserts
    case Finalize(id, to) => to != Open
    case FinalLands(id, to) => (id, to) in s.finals
    case FinalLost(id, to) => (id, to) in s.finals
    case NewDay(day) => day > s.today
    case PruneMemory => true
    case PruneRows(day) => day <= s.today
    case Crash(day, _, _) => day >= s.today
  }

  ghost function Apply(s: Sys, step: Step): Sys
    requires Enabled(s, step)
  {
    match step
    case Submit(id, key, limit) =>
      if Tally(s.mem.usage, key) >= limit then s else
      s.(mem := Admit(s.mem, key, limit, id), inserts := s.inserts[id := key], used := s.used + {id})
    case InsertLands(id) =>
      s.(rows := RowInserted(s.rows, id, s.inserts[id]), inserts := s.inserts - {id})
    case InsertLost(id) => s.(inserts := s.inserts - {id})
    case Finalize(id, to) =>
      if id == "" || !IsOpen(s.mem, id) then s else
      s.(mem := Finalized(s.mem, id, to), finals := s.finals + {(id, to)})
    case FinalLands(id, to) =>
      s.(rows := RowFinalized(s.rows, id, to), finals := s.finals - {(id, to)})
    case FinalLost(id, to) => s.(finals := s.finals - {(id, to)})
    case NewDay(day) => s.(today := day)
    case PruneMemory => s.(mem := Pruned(s.mem, s.today))
    case PruneRows(day) => s.(rows := RowsFrom(s.rows, day))
    case Crash(day, live, loads) =>
      var charges := if loads then Restored(s.rows, live, day) else map[];
      s.(today := day, mem := Ledger(TallyOf(charges), charges), inserts := map[], finals := {})
  }

  ghost predicate Legal(s: Sys, steps: seq<Step>)
    decreases |steps|
  {
    steps == [] || (Enabled(s, steps[0]) && Legal(Apply(s, steps[0]), steps[1..]))
  }

  ghost function Exec(s: Sys, steps: seq<Step>): Sys
    requires Legal(s, steps)
    decreases |steps|
  {
    if steps == [] then s else Exec(Apply(s, steps[0]), steps[1..])
  }

  lemma ExecCons(s: Sys, step: Step, rest: seq<Step>)
    requires Enabled(s, step) && Legal(Apply(s, step), rest)
    ensures Legal(s, [step] + rest) && Exec(s, [step] + rest) == Exec(Apply(s, step), rest)
  {
    assert ([step] + rest)[1..] == rest;
  }

  // ---- what every run keeps -----------------------------------------------

  /** A row and the charge in memory are about the same slot, and a closed row closed in memory first. */
  ghost predicate RowAgrees(s: Sys, id: ChargeId)
    requires id in s.rows
  {
    var row := s.rows[id];
    && row.key.day <= s.today
    && (id in s.mem.charges ==>
          s.mem.charges[id].key == row.key && (row.state != Open ==> s.mem.charges[id].state == row.state))
  }

  ghost predicate InsertAgrees(s: Sys, id: ChargeId)
    requires id in s.inserts
  {
    && id !in s.rows
    && s.inserts[id].day <= s.today
    && (id in s.mem.charges ==> s.mem.charges[id].key == s.inserts[id])
    && (s.inserts[id].day == s.today ==> id in s.mem.charges)
  }

  ghost predicate Mirrored(s: Sys) {
    && Consistent(s.mem)
    && "" !in s.used
    && s.mem.charges.Keys <= s.used && s.rows.Keys <= s.used && s.inserts.Keys <= s.used
    && (forall id :: id in s.rows ==> RowAgrees(s, id))
    && (forall id :: id in s.inserts ==> InsertAgrees(s, id))
    && (forall f :: f in s.finals ==> f.0 in s.used && f.1 != Open)
    && (forall f :: f in s.finals && f.0 in s.mem.charges ==> s.mem.charges[f.0].state == f.1)
  }

  lemma StepKeepsMirrored(s: Sys, step: Step)
    requires Mirrored(s) && Enabled(s, step)
    ensures Mirrored(Apply(s, step))
  {
    var s' := Apply(s, step);
    match step {
      case Submit(id, key, limit) => AdmitKeepsConsistent(s.mem, key, limit, id);
      case Finalize(id, to) => FinalizeIsExact(s.mem, id, to);
      case PruneMemory => PruneKeepsConsistent(s.mem, s.today);
      case Crash(_, _, _) => TallyOfIsConsistent(s'.mem.charges);
      case _ =>
    }
    forall id | id in s'.rows ensures RowAgrees(s', id) {
      assert id in s.rows ==> RowAgrees(s, id);
      assert id in s.inserts ==> InsertAgrees(s, id);
    }
    forall id | id in s'.inserts ensures InsertAgrees(s', id) {
      assert id in s.inserts ==> InsertAgrees(s, id);
    }
  }

  lemma {:induction false} RunKeepsMirrored(s: Sys, steps: seq<Step>)
    requires Mirrored(s) && Legal(s, steps)
    ensures Mirrored(Exec(s, steps))
    decreases |steps|
  {
    if steps != [] {
      StepKeepsMirrored(s, steps[0]);
      RunKeepsMirrored(Apply(s, steps[0]), steps[1..]);
    }
  }

  // ---- recovery -----------------------------------------------------------

  /** Slots occupied in memory whose row never reached the table. */
  ghost function Missing(s: Sys, key: Key): set<ChargeId> {
    set id | id in Counted(s.mem.charges, key) && id !in s.rows
  }

  /** Slots memory gave back whose row still says otherwise. */
  ghost function Stale(s: Sys, key: Key): set<ChargeId> {
    set id | id in s.rows && s.rows[id].key == key && s.rows[id].state != Refunded
             && id in s.mem.charges && s.mem.charges[id].state == Refunded
  }

  /** Rows of today that count and that memory has not known since a boot that could not read them. */
  ghost function Forgotten(s: Sys, key: Key): set<ChargeId> {
    set id | id in s.rows && s.rows[id].key == key && s.rows[id].state != Refunded && id !in s.mem.charges
  }

  /** The counted rows are the counted charges, without the missing ones, and with the stale and the forgotten ones. */
  lemma CountedRows(s: Sys, live: set<ChargeId>, key: Key)
    requires Mirrored(s) && key.day == s.today
    ensures Counted(Restored(s.rows, live, s.today), key)
            == (Counted(s.mem.charges, key) - Missing(s, key)) + (Stale(s, key) + Forgotten(s, key))
  {
    var now := Counted(Restored(s.rows, live, s.today), key);
    var split := (Counted(s.mem.charges, key) - Missing(s, key)) + (Stale(s, key) + Forgotten(s, key));
    forall id ensures id in now <==> id in split {
      if id in s.rows {
        assert RowAgrees(s, id);
      }
    }
  }

  lemma SplitSizes(whole: set<ChargeId>, part: set<ChargeId>, extra: set<ChargeId>)
    requires part <= whole && whole !! extra
    ensures |(whole - part) + extra| + |part| == |whole| + |extra|
  {
    assert (whole - part) + part == whole;
  }

  /**
   Crash at any point of any run. A boot that cannot read the rows starts from nothing. One that can
   differs from what memory held by exactly the lost inserts, the lost refunds, and the rows that an
   earlier boot could not read and that come back now.
   */
  lemma RecoveryIsExact(steps: seq<Step>, live: set<ChargeId>, loads: bool, key: Key)
    requires Legal(START, steps)
    requires key.day == Exec(START, steps).today
    ensures var s := Exec(START, steps);
            var booted := Tally(Apply(s, Crash(s.today, live, loads)).mem.usage, key);
            if loads then booted + |Missing(s, key)| == Tally(s.mem.usage, key) + |Stale(s, key)| + |Forgotten(s, key)|
            else booted == 0
  {
    RunKeepsMirrored(START, steps);
    var s := Exec(START, steps);
    StepKeepsMirrored(s, Crash(s.today, live, loads));
    if loads {
      RestoredCount(s, live, key);
    }
  }

  lemma RestoredCount(s: Sys, live: set<ChargeId>, key: Key)
    requires Mirrored(s) && key.day == s.today
    ensures |Counted(Restored(s.rows, live, s.today), key)| + |Missing(s, key)|
            == |Counted(s.mem.charges, key)| + |Stale(s, key)| + |Forgotten(s, key)|
  {
    CountedRows(s, live, key);
    assert Stale(s, key) !! Forgotten(s, key);
    SplitSizes(Counted(s.mem.charges, key), Missing(s, key), Stale(s, key) + Forgotten(s, key));
  }

  /** Exactly when a restart does not lower the tally. */
  lemma RecoveryErrsTowardTheLimit(steps: seq<Step>, live: set<ChargeId>, loads: bool, key: Key)
    requires Legal(START, steps)
    requires key.day == Exec(START, steps).today
    ensures var s := Exec(START, steps);
            Tally(Apply(s, Crash(s.today, live, loads)).mem.usage, key) >= Tally(s.mem.usage, key) <==>
            if loads then |Missing(s, key)| <= |Stale(s, key)| + |Forgotten(s, key)| else Counted(s.mem.charges, key) == {}
  {
    RecoveryIsExact(steps, live, loads, key);
    RunKeepsMirrored(START, steps);
  }

  /** In particular when the rows can be read and every insert that still counts has landed. */
  lemma LandedInsertsSurvive(steps: seq<Step>, live: set<ChargeId>, key: Key)
    requires Legal(START, steps)
    requires key.day == Exec(START, steps).today
    requires Counted(Exec(START, steps).mem.charges, key) <= Exec(START, steps).rows.Keys
    ensures var s := Exec(START, steps);
            Tally(Apply(s, Crash(s.today, live, true)).mem.usage, key) >= Tally(s.mem.usage, key)
  {
    RecoveryErrsTowardTheLimit(steps, live, true, key);
    assert Missing(Exec(START, steps), key) == {};
  }

  /** An open charge after boot is one whose deferred job survived; every orphan counts and is closed. */
  lemma OrphansComeBackCommitted(s: Sys, day: int, live: set<ChargeId>, loads: bool, id: ChargeId)
    requires Mirrored(s) && day >= s.today
    ensures var c := Apply(s, Crash(day, live, loads)).mem.charges;
            && (id in c <==> loads && id in s.rows && s.rows[id].key.day == day && s.rows[id].state != Refunded)
            && (id in c ==> c[id].key == s.rows[id].key && c[id].state != Refunded)
            && (id in c ==> (c[id].state == Open <==> s.rows[id].state == Open && id in live))
  {
  }

  /**
   A failed insert is forgotten by a restart, and the user then gets past the limit: the remark
   that a restart "fails toward the limit, never past it" does not hold when an insert failed.
   */
  lemma LostInsertLiftsTheLimit(key: Key)
    requires key.day == 0
    ensures var steps := [Submit("a", key, 1), InsertLost("a"), Crash(0, {}, true), Submit("b", key, 1)];
            && Legal(START, steps)
            && Tally(Apply(START, steps[0]).mem.usage, key) == 1
            && IsOpen(Exec(START, steps).mem, "b")
  {
    LiftsTheLimit(InsertLost("a"), true, key);
  }

  /** Nor does it hold when the rows cannot be read at boot, although every insert has landed. */
  lemma FailedLoadLiftsTheLimit(key: Key)
    requires key.day == 0
    ensures var steps := [Submit("a", key, 1), InsertLands("a"), Crash(0, {}, false), Submit("b", key, 1)];
            && Legal(START, steps)
            && Tally(Apply(START, steps[0]).mem.usage, key) == 1
            && IsOpen(Exec(START, steps).mem, "b")
  {
    LiftsTheLimit(InsertLands("a"), false, key);
  }

  lemma NothingRestored(s: Sys, write: Step, loads: bool, key: Key)
    requires key.day == 0 && write == if loads then InsertLost("a") else InsertLands("a")
    requires s == Sys(0, Ledger(map[key := 1], map["a" := Charge(key, Open)]), map[], map["a" := key], {}, {"a"})
    ensures Apply(Apply(s, write), Crash(0, {}, loads)).mem == Ledger(map[], map[])
  {
    var charges := Apply(Apply(s, write), Crash(0, {}, loads)).mem.charges;
    assert charges == map[];
    assert TallyOf(charges) == map[];
  }

  lemma LiftsTheLimit(write: Step, loads: bool, key: Key)
    requires key.day == 0 && write == if loads then InsertLost("a") else InsertLands("a")
    ensures var steps := [Submit("a", key, 1), write, Crash(0, {}, loads), Submit("b", key, 1)];
            && Legal(START, steps)
            && Tally(Apply(START, steps[0]).mem.usage, key) == 1
            && IsOpen(Exec(START, steps).mem, "b")
  {
    var steps := [Submit("a", key, 1), write, Crash(0, {}, loads), Submit("b", key, 1)];
    var s1 := Apply(START, steps[0]);
    var s2 := Apply(s1, steps[1]);
    var s3 := Apply(s2, steps[2]);
    NothingRestored(s1, write, loads, key);
    ExecCons(s3, steps[3], []);
    ExecCons(s2, steps[2], [steps[3]]);
    ExecCons(s1, steps[1], [steps[2]] + [steps[3]]);
    ExecCons(START, steps[0], [steps[1]] + ([steps[2]] + [steps[3]]));
    assert steps == [steps[0]] + ([steps[1]] + ([steps[2]] + [steps[3]]));
  }

  // ---- a restart that refunds first ---------------------------------------

  /** A refunded row is never counted again: it stays refunded until it is pruned, over every run. */
  lemma {:induction false} RefundedRowStays(s: Sys, steps: seq<Step>, id: ChargeId)
    requires Mirrored(s) && Legal(s, steps) && id in s.used
    requires id !in s.inserts && (id in s.rows ==> s.rows[id].state == Refunded)
    ensures id in Exec(s, steps).rows ==> Exec(s, steps).rows[id].state == Refunded
    decreases |steps|
  {
    if steps != [] {
      StepKeepsMirrored(s, steps[0]);
      RefundedRowStays(Apply(s, steps[0]), steps[1..], id);
    }
  }

  /** The synchronous refunds of /restart: each write lands before the next refund is made. */
  function RefundsInStep(ids: seq<ChargeId>): seq<Step> {
    if ids == [] then [] else [Finalize(ids[0], Refunded), FinalLands(ids[0], Refunded)] + RefundsInStep(ids[1..])
  }

  lemma RefundLands(s: Sys, id: ChargeId)
    requires Mirrored(s) && id in s.rows && IsOpen(s.mem, id)
    ensures Legal(s, [Finalize(id, Refunded), FinalLands(id, Refunded)])
    ensures var s' := Exec(s, [Finalize(id, Refunded), FinalLands(id, Refunded)]);
            && Mirrored(s') && s'.inserts == s.inserts && s'.used == s.used && s'.rows.Keys == s.rows.Keys
            && s'.rows[id].state == Refunded && s'.mem.charges.Keys == s.mem.charges.Keys
            && forall x :: x != id && x in s.mem.charges ==> s'.mem.charges[x] == s.mem.charges[x]
  {
    var first, second := Finalize(id, Refunded), FinalLands(id, Refunded);
    var s1 := Apply(s, first);
    assert RowAgrees(s, id);
    StepKeepsMirrored(s, first);
    StepKeepsMirrored(s1, second);
    ExecCons(s1, second, []);
    ExecCons(s, first, [second]);
    assert [first] + [second] == [first, second];
  }

  /**
   A /restart whose synchronous refunds land after their inserts: whatever happens next, no later boot
   restores one of the cancelled charges.
   */
  lemma {:induction false} RestartRefundsAreFinal(s: Sys, ids: seq<ChargeId>, more: seq<Step>, k: nat)
    requires Mirrored(s) && k < |ids|
    requires forall i :: 0 <= i < |ids| ==> ids[i] in s.rows && IsOpen(s.mem, ids[i])
    requires forall i, j :: 0 <= i < j < |ids| ==> ids[i] != ids[j]
    ensures Legal(s, RefundsInStep(ids))
    ensures Legal(Exec(s, RefundsInStep(ids)), more) ==>
              var s' := Exec(Exec(s, RefundsInStep(ids)), more);
              forall day, live, loads :: day >= s'.today ==> ids[k] !in Apply(s', Crash(day, live, loads)).mem.charges
    decreases |ids|
  {
    RefundsLand(s, ids);
    var s1 := Exec(s, RefundsInStep(ids));
    if Legal(s1, more) {
      assert ids[k] !in s1.inserts by {
        assert ids[k] in s1.inserts ==> InsertAgrees(s1, ids[k]);
      }
      RefundedRowStays(s1, more, ids[k]);
    }
  }

  lemma {:induction false} RefundsLand(s: Sys, ids: seq<ChargeId>)
    requires Mirrored(s)
    requires forall i :: 0 <= i < |ids| ==> ids[i] in s.rows && IsOpen(s.mem, ids[i])
    requires forall i, j :: 0 <= i < j < |ids| ==> ids[i] != ids[j]
    ensures Legal(s, RefundsInStep(ids)) && Mirrored(Exec(s, RefundsInStep(ids)))
    ensures var s' := Exec(s, RefundsInStep(ids));
            && s'.used == s.used && s'.rows.Keys == s.rows.Keys
            && (forall i :: 0 <= i < |ids| ==> s'.rows[ids[i]].state == Refunded)
            && (forall id :: id in s.rows && s.rows[id].state == Refunded ==> s'.rows[id].state == Refunded)
    decreases |ids|
  {
    if ids != [] {
      var id := ids[0];
      var now := [Finalize(id, Refunded), FinalLands(id, Refunded)];
      RefundLands(s, id);
      var s1 := Exec(s, now);
      RefundsLand(s1, ids[1..]);
      ExecConcat(s, now, RefundsInStep(ids[1..]));
      assert forall i :: 0 < i < |ids| ==> ids[i] == ids[1..][i - 1];
      assert forall x :: x in s.rows && s.rows[x].state == Refunded ==> s1.rows[x].state == Refunded by {
        KeepsRefunded(s, now);
      }
    }
  }

  lemma KeepsRefunded(s: Sys, now: seq<Step>)
    requires Mirrored(s) && Legal(s, now) && forall i :: 0 <= i < |now| ==> now[i].Finalize? || now[i].FinalLands?
    ensures forall x :: x in s.rows && s.rows[x].state == Refunded ==> x in Exec(s, now).rows && Exec(s, now).rows[x].state == Refunded
    decreases |now|
  {
    if now != [] {
      StepKeepsMirrored(s, now[0]);
      KeepsRefunded(Apply(s, now[0]), now[1..]);
    }
  }

  // ---- the limit ----------------------------------------------------------

  ghost predicate WithinLimit(s: Sys, lim: Key -> nat) {
    forall key :: Tally(s.mem.usage, key) <= lim(key)
  }

  predicate KeepsLimit(step: Step, lim: Key -> nat) {
    !step.Crash? && (step.Submit? ==> step.limit <= lim(step.key))
  }

  lemma StepKeepsLimit(s: Sys, step: Step, lim: Key -> nat)
    requires Mirrored(s) && WithinLimit(s, lim) && Enabled(s, step) && KeepsLimit(step, lim)
    ensures WithinLimit(Apply(s, step), lim)
  {
    if step.Finalize? {
      FinalizeIsExact(s.mem, step.id, step.to);
    } else if step.PruneMemory? {
      PruneKeepsConsistent(s.mem, s.today);
    }
  }

  /** While no admission uses a limit above lim and the process does not restart, usage never exceeds lim. */
  lemma {:induction false} RunKeepsLimit(s: Sys, steps: seq<Step>, lim: Key -> nat)
    requires Mirrored(s) && WithinLimit(s, lim) && Legal(s, steps)
    requires forall i :: 0 <= i < |steps| ==> KeepsLimit(steps[i], lim)
    ensures WithinLimit(Exec(s, steps), lim)
    decreases |steps|
  {
    if steps != [] {
      StepKeepsMirrored(s, steps[0]);
      StepKeepsLimit(s, steps[0], lim);
      RunKeepsLimit(Apply(s, steps[0]), steps[1..], lim);
    }
  }

  predicate ByRole(step: Step, restricted: bool, donors: set<int>) {
    !step.Crash? && (step.Submit? ==> step.limit == RipLimit(restricted, step.key.user in donors, step.key.kind))
  }

  /** With roles that stay as they are, nobody gets past the limit of their role in any run from an empty ledger. */
  lemma RoleLimitHolds(steps: seq<Step>, restricted: bool, donors: set<int>, key: Key)
    requires Legal(START, steps) && forall i :: 0 <= i < |steps| ==> ByRole(steps[i], restricted, donors)
    ensures Tally(Exec(START, steps).mem.usage, key) <= RipLimit(restricted, key.user in donors, key.kind)
  {
    var lim := (k: Key) => RipLimit(restricted, k.user in donors, k.kind);
    forall i | 0 <= i < |steps| ensures KeepsLimit(steps[i], lim) {
      assert ByRole(steps[i], restricted, donors);
    }
    RunKeepsLimit(START, steps, lim);
    assert Tally(Exec(START, steps).mem.usage, key) <= lim(key);
  }

  /** The restart matters: a refund whose write is lost is counted again, above the limit. */
  lemma LostRefundExceedsTheLimit(key: Key)
    requires key.day == 0
    ensures var steps := [Submit("a", key, 1), InsertLands("a"), Finalize("a", Refunded),
                          Submit("b", key, 1), InsertLands("b"), Crash(0, {}, true)];
            Legal(START, steps) && Tally(Exec(START, steps).mem.usage, key) == 2
  {
    var steps := [Submit("a", key, 1), InsertLands("a"), Finalize("a", Refunded)];
    var more := [Submit("b", key, 1), InsertLands("b"), Crash(0, {}, true)];
    var s := RefundedButNotWritten(key);
    CountedTwice(s, key);
    ExecConcat(START, steps, more);
    assert steps + more == [Submit("a", key, 1), InsertLands("a"), Finalize("a", Refunded),
                            Submit("b", key, 1), InsertLands("b"), Crash(0, {}, true)];
  }

  lemma RefundedButNotWritten(key: Key) returns (s: Sys)
    requires key.day == 0
    ensures var steps := [Submit("a", key, 1), InsertLands("a"), Finalize("a", Refunded)];
            Legal(START, steps) && s == Exec(START, steps)
    ensures s.today == 0 && s.rows == map["a" := Charge(key, Open)] && s.used == {"a"}
    ensures Tally(s.mem.usage, key) == 0 && s.inserts == map[]
  {
    var steps := [Submit("a", key, 1), InsertLands("a"), Finalize("a", Refunded)];
    var s1 := Apply(START, steps[0]);
    var s2 := Apply(s1, steps[1]);
    s := Apply(s2, steps[2]);
    ExecCons(s2, steps[2], []);
    ExecCons(s1, steps[1], [steps[2]]);
    ExecCons(START, steps[0], [steps[1]] + [steps[2]]);
    assert steps == [steps[0]] + ([steps[1]] + [steps[2]]);
  }

  lemma RestoredTwice(rows: map<ChargeId, Charge>, key: Key)
    requires rows == map["a" := Charge(key, Open), "b" := Charge(key, Open)]
    ensures Tally(TallyOf(Restored(rows, {}, key.day)), key) == 2
  {
    var charges := Restored(rows, {}, key.day);
    assert Counted(charges, key) == {"a", "b"};
    TallyOfIsConsistent(charges);
  }

  lemma CountedTwice(s: Sys, key: Key)
    requires key.day == 0 && s.today == 0 && s.rows == map["a" := Charge(key, Open)] && s.used == {"a"}
    requires Tally(s.mem.usage, key) == 0 && s.inserts == map[]
    ensures var steps := [Submit("b", key, 1), InsertLands("b"), Crash(0, {}, true)];
            Legal(s, steps) && Tally(Exec(s, steps).mem.usage, key) == 2
  {
    var steps := [Submit("b", key, 1), InsertLands("b"), Crash(0, {}, true)];
    var s1 := Apply(s, steps[0]);
    assert s1.inserts == map["b" := key] && s1.rows == s.rows;
    var s2 := Apply(s1, steps[1]);
    assert s2.rows == map["a" := Charge(key, Open), "b" := Charge(key, Open)];
    RestoredTwice(s2.rows, key);
    ExecCons(s2, steps[2], []);
    ExecCons(s1, steps[1], [steps[2]]);
    ExecCons(s, steps[0], [steps[1]] + [steps[2]]);
    assert steps == [steps[0]] + ([steps[1]] + [steps[2]]);
  }

  lemma {:induction false} ExecConcat(s: Sys, first: seq<Step>, second: seq<Step>)
    requires Legal(s, first) && Legal(Exec(s, first), second)
    ensures Legal(s, first + second) && Exec(s, first + second) == Exec(Exec(s, first), second)
    decreases |first|
  {
    if first == [] {
      assert first + second == second;
    } else {
      ExecConcat(Apply(s, first[0]), first[1..], second);
      assert first + second == [first[0]] + (first[1..] + second);
      ExecCons(s, first[0], first[1..] + second);
    }
  }
}
