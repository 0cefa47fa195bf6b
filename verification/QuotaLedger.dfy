/**
 The in-memory per-day quota of bot/quota.go: the tally the admission gate reads, and the
 charge table that makes commit and refund happen at most once.
 */
module QuotaLedger {

  datatype State = Open | Committed | Refunded

  /** One user's tally for a kind of rip on one quota-day (a day number, see Clock.QuotaDay). */
  datatype Key = Key(user: int, day: int, kind: string)

  datatype Charge = Charge(key: Key, state: State)

  /** Generated task ids; "" is the charge of a request that is not charged. */
  type ChargeId = string

  datatype Ledger = Ledger(usage: map<Key, nat>, charges: map<ChargeId, Charge>)

  const UNLIMITED: nat := 0x4000_0000

  function Tally(usage: map<Key, nat>, key: Key): nat {
    if key in usage then usage[key] else 0
  }

  /** The charges that still occupy a slot of key. */
  ghost function Counted(charges: map<ChargeId, Charge>, key: Key): set<ChargeId> {
    set id | id in charges && charges[id].key == key && charges[id].state != Refunded
  }

  /** The gate's number is exactly the number of occupied slots, for every key. */
  ghost predicate Consistent(l: Ledger) {
    && "" !in l.charges
    && forall key :: Tally(l.usage, key) == |Counted(l.charges, key)|
  }

  // ---- limits -------------------------------------------------------------

  function HeavyRipLimit(kind: string, donor: bool): nat {
    if kind == "playlist" then (if donor then 3 else 2)
    else if donor then 2 else 1
  }

  function RipLimit(restricted: bool, donor: bool, kind: string): nat {
    if restricted && donor then UNLIMITED
    else if restricted && kind == "album" then 20
    else if restricted && kind == "playlist" then 2
    else HeavyRipLimit(kind, donor)
  }

  // ---- the steps of the ledger --------------------------------------------

  function Admit(l: Ledger, key: Key, limit: nat, id: ChargeId): Ledger {
    if Tally(l.usage, key) >= limit then l
    else Ledger(l.usage[key := Tally(l.usage, key) + 1], l.charges[id := Charge(key, Open)])
  }

  predicate IsOpen(l: Ledger, id: ChargeId) {
    id in l.charges && l.charges[id].state == Open
  }

  /** The open -> committed|refunded transition; a no-op on any other charge. */
  function Finalized(l: Ledger, id: ChargeId, to: State): Ledger {
    if id == "" || !IsOpen(l, id) then l
    else
      var key := l.charges[id].key;
      Ledger(
        if to == Refunded && Tally(l.usage, key) > 0 then l.usage[key := Tally(l.usage, key) - 1] else l.usage,
        l.charges[id := Charge(key, to)])
  }

  function Pruned(l: Ledger, day: int): Ledger {
    Ledger(map key | key in l.usage && key.day == day :: l.usage[key],
           map id | id in l.charges && l.charges[id].key.day == day :: l.charges[id])
  }

  /** What boot makes of a persisted row: an open row survives only under a live deferred job. */
  function RestoredState(id: ChargeId, row: Charge, live: set<ChargeId>): State {
    if row.state == Open && id !in live then Committed else row.state
  }

  function Restored(rows: map<ChargeId, Charge>, live: set<ChargeId>, day: int): map<ChargeId, Charge> {
    map id | id in rows && rows[id].key.day == day && rows[id].state != Refunded ::
      Charge(rows[id].key, RestoredState(id, rows[id], live))
  }

  /** The tally a set of charges amounts to. */
  ghost function TallyOf(charges: map<ChargeId, Charge>): map<Key, nat> {
    map key | key in (set id | id in charges :: charges[id].key) :: |Counted(charges, key)|
  }

  lemma TallyOfIsConsistent(charges: map<ChargeId, Charge>)
    requires "" !in charges
    ensures Consistent(Ledger(TallyOf(charges), charges))
  {
    var l := Ledger(TallyOf(charges), charges);
    forall key ensures Tally(l.usage, key) == |Counted(charges, key)| {
      if key !in l.usage {
        assert Counted(charges, key) == {};
      }
    }
  }

  // ---- ledger arithmetic --------------------------------------------------

  /** A charge under a new id occupies one slot of its own key and touches no other tally. */
  lemma CountFresh(l: Ledger, id: ChargeId, c: Charge)
    requires Consistent(l) && id != "" && id !in l.charges && c.state != Refunded
    ensures Consistent(Ledger(l.usage[c.key := Tally(l.usage, c.key) + 1], l.charges[id := c]))
  {
    var l' := Ledger(l.usage[c.key := Tally(l.usage, c.key) + 1], l.charges[id := c]);
    forall k ensures Tally(l'.usage, k) == |Counted(l'.charges, k)| {
      CountedWith(l.charges, id, c, k);
      assert Tally(l.usage, k) == |Counted(l.charges, k)|;
    }
  }

  lemma CountedWith(charges: map<ChargeId, Charge>, id: ChargeId, c: Charge, k: Key)
    requires id !in charges && c.state != Refunded
    ensures |Counted(charges[id := c], k)| == |Counted(charges, k)| + if k == c.key then 1 else 0
  {
    if k == c.key {
      assert Counted(charges[id := c], k) == Counted(charges, k) + {id};
    } else {
      assert Counted(charges[id := c], k) == Counted(charges, k);
    }
  }

  lemma AdmitKeepsConsistent(l: Ledger, key: Key, limit: nat, id: ChargeId)
    requires Consistent(l) && id != "" && id !in l.charges
    ensures Consistent(Admit(l, key, limit, id))
    ensures Tally(Admit(l, key, limit, id).usage, key) <= if limit > Tally(l.usage, key) then limit else Tally(l.usage, key)
  {
    CountFresh(l, id, Charge(key, Open));
  }

  /** Under a consistent ledger the positive-count guard on a refund is never false. */
  lemma RefundGuardHolds(l: Ledger, id: ChargeId)
    requires Consistent(l) && IsOpen(l, id)
    ensures Tally(l.usage, l.charges[id].key) > 0
  {
    assert id in Counted(l.charges, l.charges[id].key);
  }

  /** A finalization frees exactly one slot when it is a refund of an open charge, and none otherwise. */
  lemma FinalizeIsExact(l: Ledger, id: ChargeId, to: State)
    requires Consistent(l) && to != Open
    ensures Consistent(Finalized(l, id, to))
    ensures forall key :: Tally(Finalized(l, id, to).usage, key) + (if IsOpen(l, id) && to == Refunded && l.charges[id].key == key then 1 else 0)
                          == Tally(l.usage, key)
  {
    if IsOpen(l, id) {
      RefundGuardHolds(l, id);
      var l' := Finalized(l, id, to);
      forall k ensures Tally(l'.usage, k) == |Counted(l'.charges, k)| {
        if to == Refunded && k == l.charges[id].key {
          assert Counted(l'.charges, k) == Counted(l.charges, k) - {id};
        } else {
          assert Counted(l'.charges, k) == Counted(l.charges, k);
        }
      }
    }
  }

  /** Racing or repeated finalizations: only the first one to reach a charge has any effect. */
  lemma FirstFinalizationWins(l: Ledger, id: ChargeId, first: State, second: State)
    requires first != Open
    ensures Finalized(Finalized(l, id, first), id, second) == Finalized(l, id, first)
  {
  }

  lemma PruneKeepsConsistent(l: Ledger, day: int)
    requires Consistent(l)
    ensures Consistent(Pruned(l, day))
    ensures forall key :: Tally(Pruned(l, day).usage, key) == if key.day == day then Tally(l.usage, key) else 0
  {
    var l' := Pruned(l, day);
    forall k ensures Tally(l'.usage, k) == |Counted(l'.charges, k)| {
      assert Counted(l'.charges, k) == if k.day == day then Counted(l.charges, k) else {};
    }
  }

  // ---- settling a rip -----------------------------------------------------

  /** What the closure that runs after a rip hands to finalizeHeavyQuota; module RipSettlement says how a rip fills it in. */
  datatype RipOutcome = RipOutcome(
    cancelled: bool,            // a captured context that is cancelled
    byOwner: bool,              // cancelled by its own requester
    delivered: nat,             // flushed parts or releases
    flushedAny: bool,
    deliveredSomething: bool)

  function Settlement(o: RipOutcome, totalReleases: nat, perRelease: bool): State {
    var pastThreshold :=
      if perRelease then totalReleases > 0 && o.delivered * 2 > totalReleases else o.flushedAny;
    if (!o.cancelled && o.deliveredSomething) || (o.cancelled && o.byOwner && pastThreshold) then Committed else Refunded
  }

  // ---- the tables themselves ----------------------------------------------

  class QuotaTable {
    var quotaUsage: map<Key, nat>
    var quotaCharges: map<ChargeId, Charge>

    constructor ()
      ensures Table() == Ledger(map[], map[])
    {
      quotaUsage, quotaCharges := map[], map[];
    }

    function Table(): Ledger
      reads this
    {
      Ledger(quotaUsage, quotaCharges)
    }

    /** newId is the id the generator would hand out; a zero user is admitted uncharged. */
    method CheckAndCharge(user: int, kind: string, limit: nat, day: int, newId: ChargeId)
      returns (chargeID: ChargeId, ok: bool)
      requires newId != "" && newId !in quotaCharges
      modifies this
      ensures user == 0 ==> ok && chargeID == "" && Table() == old(Table())
      ensures user != 0 ==> ok == (old(Tally(quotaUsage, Key(user, day, kind))) < limit)
      ensures user != 0 ==> chargeID == if ok then newId else ""
      ensures user != 0 ==> Table() == Admit(old(Table()), Key(user, day, kind), limit, newId)
      ensures old(Consistent(Table())) ==> Consistent(Table())
    {
      if user == 0 {
        return "", true;
      }
      var key := Key(user, day, kind);
      if Tally(quotaUsage, key) >= limit {
        return "", false;
      }
      if Consistent(Table()) {
        AdmitKeepsConsistent(Table(), key, limit, newId);
      }
      quotaUsage := quotaUsage[key := Tally(quotaUsage, key) + 1];
      quotaCharges := quotaCharges[newId := Charge(key, Open)];
      return newId, true;
    }

    /** mirror tells whether a durable write is owed, i.e. whether the transition happened. */
    method SetState(chargeID: ChargeId, newState: State) returns (mirror: bool)
      requires newState != Open
      modifies this
      ensures Table() == Finalized(old(Table()), chargeID, newState)
      ensures mirror == (chargeID != "" && old(IsOpen(Table(), chargeID)))
      ensures old(Consistent(Table())) ==> Consistent(Table())
    {
      if chargeID == "" {
        return false;
      }
      if chargeID !in quotaCharges || quotaCharges[chargeID].state != Open {
        return false;
      }
      if Consistent(Table()) {
        FinalizeIsExact(Table(), chargeID, newState);
      }
      var key := quotaCharges[chargeID].key;
      quotaCharges := quotaCharges[chargeID := Charge(key, newState)];
      if newState == Refunded {
        if Tally(quotaUsage, key) > 0 {
          quotaUsage := quotaUsage[key := Tally(quotaUsage, key) - 1];
        }
      }
      return true;
    }

    /** Whatever the rip did, its charge is closed afterwards, and no other charge is touched. */
    method FinalizeHeavy(chargeID: ChargeId, o: RipOutcome, totalReleases: nat, perRelease: bool)
      modifies this
      ensures Table() == Finalized(old(Table()), chargeID, Settlement(o, totalReleases, perRelease))
      ensures chargeID != "" ==> !IsOpen(Table(), chargeID)
      ensures forall id :: id != chargeID && id in old(quotaCharges) ==> id in quotaCharges && quotaCharges[id] == old(quotaCharges)[id]
      ensures old(Consistent(Table())) ==> Consistent(Table())
    {
      if chargeID == "" {
        return;
      }
      var pastThreshold;
      if perRelease {
        pastThreshold := totalReleases > 0 && o.delivered * 2 > totalReleases;
      } else {
        pastThreshold := o.flushedAny;
      }
      if !o.cancelled && o.deliveredSomething {
        var _ := SetState(chargeID, Committed);
      } else if o.cancelled && o.byOwner && pastThreshold {
        var _ := SetState(chargeID, Committed);
      } else {
        var _ := SetState(chargeID, Refunded);
      }
    }

    /** Drops every entry of another quota-day, one at a time. */
    method Prune(day: int)
      modifies this
      ensures Table() == Pruned(old(Table()), day)
    {
      var keys := quotaUsage.Keys;
      while keys != {}
        invariant keys <= old(quotaUsage).Keys
        invariant quotaCharges == old(quotaCharges)
        invariant quotaUsage == map k | k in old(quotaUsage) && (k in keys || k.day == day) :: old(quotaUsage)[k]
        decreases keys
      {
        var k :| k in keys;
        keys := keys - {k};
        if k.day != day {
          quotaUsage := quotaUsage - {k};
        }
      }
      var ids := quotaCharges.Keys;
      while ids != {}
        invariant ids <= old(quotaCharges).Keys
        invariant quotaUsage == Pruned(old(Table()), day).usage
        invariant quotaCharges == map id | id in old(quotaCharges) && (id in ids || old(quotaCharges)[id].key.day == day) :: old(quotaCharges)[id]
        decreases ids
      {
        var id :| id in ids;
        ids := ids - {id};
        if quotaCharges[id].key.day != day {
          quotaCharges := quotaCharges - {id};
        }
      }
    }

    /**
     Rebuilds the tally from one quota-day's rows, in the order the query returns them, if the rows can
     be read at all. Boot starts from empty tables and charge_id is the primary key of the rows.
     */
    method LoadBoot(loads: bool, loaded: seq<(ChargeId, Charge)>, live: set<ChargeId>, day: int, ghost rows: map<ChargeId, Charge>)
      requires quotaUsage == map[] && quotaCharges == map[] && "" !in rows
      requires loads ==>
                 && (forall i, j :: 0 <= i < j < |loaded| ==> loaded[i].0 != loaded[j].0)
                 && (forall i :: 0 <= i < |loaded| ==> loaded[i].0 in rows && rows[loaded[i].0] == loaded[i].1 && loaded[i].1.key.day == day)
                 && (forall id :: id in rows && rows[id].key.day == day ==> exists i :: 0 <= i < |loaded| && loaded[i].0 == id)
      modifies this
      ensures quotaCharges == if loads then Restored(rows, live, day) else map[]
      ensures Consistent(Table())
    {
      if !loads {
        return;
      }
      for n := 0 to |loaded|
        invariant forall id :: id in quotaCharges ==>
                    exists i :: 0 <= i < n && loaded[i].0 == id && loaded[i].1.state != Refunded
        invariant forall i :: 0 <= i < n && loaded[i].1.state != Refunded ==>
                    loaded[i].0 in quotaCharges &&
                    quotaCharges[loaded[i].0] == Charge(loaded[i].1.key, RestoredState(loaded[i].0, loaded[i].1, live))
        invariant Consistent(Table())
      {
        var (id, row) := loaded[n];
        if row.state == Refunded {
          continue;
        }
        var state := row.state;
        if state == Open && id !in live {
          state := Committed;
        }
        CountFresh(Table(), id, Charge(row.key, state));
        quotaCharges := quotaCharges[id := Charge(row.key, state)];
        quotaUsage := quotaUsage[row.key := Tally(quotaUsage, row.key) + 1];
      }
    }
  }
}
