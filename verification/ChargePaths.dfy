/**
 The calls that make, settle and hand on quota charges, as code over the ledger, the deferred jobs and the
 queue (bot/telegram_bot.go, bot/admin_tasks.go, bot/restriction.go). What a call learns from outside, such as
 a dedup hit, a cached delivery or an artist's releases, is an argument. Every call is shown to discharge
 its duty: whatever charge it makes or is given, it closes or hands on exactly once.
 */
module ChargePaths {
  import opened Options
  import opened QuotaLedger
  import opened ChargeActs
  import opened ChargeOwnership
  import opened RipSettlement

  // ---- paths of acts ------------------------------------------------------

  ghost predicate Follows(st: Store, path: seq<Act>, st': Store)
    decreases |path|
  {
    if path == [] then st' == st else Possible(st, path[0]) && Follows(After(st, path[0]), path[1..], st')
  }

  /** From one store and log to another by acts that fit the hands of the call. */
  ghost predicate Moves(st: Store, log: seq<Act>, held: set<ChargeId>, st': Store, log': seq<Act>, held': set<ChargeId>) {
    && log <= log'
    && Follows(st, log'[|log|..], st')
    && Proper(held, log'[|log|..]) && HeldAtEnd(held, log'[|log|..]) == held'
  }

  lemma {:induction false} FollowsConcat(st: Store, a: seq<Act>, mid: Store, b: seq<Act>, st': Store)
    requires Follows(st, a, mid) && Follows(mid, b, st')
    ensures Follows(st, a + b, st')
    decreases |a|
  {
    if a == [] {
      assert a + b == b;
    } else {
      FollowsConcat(After(st, a[0]), a[1..], mid, b, st');
      assert (a + b)[1..] == a[1..] + b;
    }
  }

  lemma {:induction false} ProperConcat(held: set<ChargeId>, a: seq<Act>, b: seq<Act>)
    requires Proper(held, a) && Proper(HeldAtEnd(held, a), b)
    ensures Proper(held, a + b) && HeldAtEnd(held, a + b) == HeldAtEnd(HeldAtEnd(held, a), b)
    decreases |a|
  {
    if a == [] {
      assert a + b == b;
    } else {
      ProperConcat(HeldAfter(held, a[0]), a[1..], b);
      assert (a + b)[1..] == a[1..] + b;
    }
  }

  lemma Then(st: Store, log: seq<Act>, held: set<ChargeId>, mid: Store, log1: seq<Act>, held1: set<ChargeId>, st': Store, log': seq<Act>, held': set<ChargeId>)
    requires Moves(st, log, held, mid, log1, held1) && Moves(mid, log1, held1, st', log', held')
    ensures Moves(st, log, held, st', log', held')
  {
    var a, b := log1[|log|..], log'[|log1|..];
    assert log'[|log|..] == a + b;
    FollowsConcat(st, a, mid, b, st');
    ProperConcat(held, a, b);
  }

  lemma OneAct(st: Store, log: seq<Act>, held: set<ChargeId>, a: Act)
    requires Possible(st, a) && Fits(held, a)
    ensures Moves(st, log, held, After(st, a), log + [a], HeldAfter(held, a))
  {
    assert (log + [a])[|log|..] == [a] && [a][1..] == [];
  }

  lemma NoAct(st: Store, log: seq<Act>, held: set<ChargeId>)
    ensures Moves(st, log, held, st, log, held)
  {
    assert log[|log|..] == [];
  }

  // ---- the desk -----------------------------------------------------------

  const KINDS := {"playlist", "artist"}

  /** A request for a charge, with the id the generator will hand out. */
  datatype Ask = Ask(user: int, limit: nat, day: int, newId: ChargeId)

  function KeyOf(ask: Ask, kind: string): Key {
    Key(ask.user, ask.day, kind)
  }

  /** What a call learns from outside. section is None when an artist's catalog cannot be read. */
  datatype Foreign = Foreign(dedupHit: bool, served: bool, section: Option<seq<string>>, musicVideos: bool)

  datatype Ending = Nothing | Denied | Deduplicated | Served | Refused | Queued | Unlisted | Deferred

  /** How many slots of a key a charge takes up. */
  function Slot(l: Ledger, id: ChargeId, key: Key): nat {
    if IsOpen(l, id) && l.charges[id].key == key then 1 else 0
  }

  ghost predicate SameTally(a: Ledger, b: Ledger) {
    forall key :: Tally(a.usage, key) == Tally(b.usage, key)
  }

  /** b has the slot of id in a given back, and is otherwise like a. */
  ghost predicate GivenBack(a: Ledger, id: ChargeId, b: Ledger) {
    forall key :: Tally(b.usage, key) + Slot(a, id, key) == Tally(a.usage, key)
  }

  /** b has one slot of key more than a if taken. */
  ghost predicate Taken(a: Ledger, key: Key, taken: bool, b: Ledger) {
    forall k :: Tally(b.usage, k) == Tally(a.usage, k) + if taken && k == key then 1 else 0
  }

  ghost predicate NoneOpened(a: Ledger, b: Ledger) {
    forall id :: IsOpen(b, id) ==> IsOpen(a, id)
  }

  ghost predicate AllClosed(ids: seq<ChargeId>, l: Ledger) {
    forall id :: id in ids ==> !IsOpen(l, id)
  }

  lemma OneMoreClosed(ids: seq<ChargeId>, id: ChargeId, a: Ledger, b: Ledger)
    requires AllClosed(ids, a) && NoneOpened(a, b) && !IsOpen(b, id)
    ensures AllClosed(ids + [id], b)
  {
  }

  class Desk {
    const table: QuotaTable
    const schedule: Schedule
    const capacity: nat
    var queue: seq<ChargeId>
    var due: seq<Job>
    ghost var used: set<ChargeId>
    ghost var log: seq<Act>

    constructor (table: QuotaTable, schedule: Schedule, capacity: nat)
      requires table.Table() == Ledger(map[], map[]) && schedule.scheduledJobs == []
      ensures this.table == table && this.schedule == schedule && this.capacity == capacity
      ensures Now() == START.st && log == [] && Valid()
    {
      this.table, this.schedule, this.capacity := table, schedule, capacity;
      queue, due, used, log := [], [], {}, [];
      new;
      assert forall key :: Counted(map[], key) == {};
    }

    ghost function Now(): Store
      reads this, table, schedule
    {
      Store(table.Table(), schedule.scheduledJobs, due, queue, used)
    }

    ghost predicate Valid()
      reads this, table, schedule
    {
      && "" !in used && table.quotaCharges.Keys <= used && Consistent(table.Table())
      && (forall j :: j in schedule.scheduledJobs ==> j.kind in KINDS)
      && (forall j :: j in due ==> j.kind in KINDS)
    }

    // ---- single acts ------------------------------------------------------

    /** quotaCheckAndCharge: a refusal, and user 0, are no act. */
    method CheckAndCharge(ask: Ask, kind: string) returns (chargeID: ChargeId, ok: bool)
      requires Valid() && ask.newId != "" && ask.newId !in used
      modifies this`used, this`log, table
      ensures Valid() && Moves(old(Now()), old(log), {}, Now(), log, Of(chargeID))
      ensures old(used) <= used <= old(used) + {ask.newId}
      ensures ok == (ask.user == 0 || Tally(old(table.quotaUsage), KeyOf(ask, kind)) < ask.limit)
      ensures chargeID == if ok && ask.user != 0 then ask.newId else ""
      ensures chargeID != "" ==> IsOpen(table.Table(), chargeID) && table.quotaCharges[chargeID].key == KeyOf(ask, kind)
      ensures Taken(old(table.Table()), KeyOf(ask, kind), chargeID != "", table.Table())
    {
      chargeID, ok := table.CheckAndCharge(ask.user, kind, ask.limit, ask.day, ask.newId);
      if chargeID == "" {
        NoAct(old(Now()), old(log), {});
      } else {
        ghost var a := Make(chargeID, KeyOf(ask, kind), ask.limit);
        OneAct(old(Now()), old(log), {}, a);
        used, log := used + {chargeID}, log + [a];
      }
    }

    /** quotaCommit and quotaRefund of a charge in hand; "" is no charge. */
    method Close(id: ChargeId, to: State)
      requires Valid() && to != Open
      modifies this`log, table
      ensures Valid() && Moves(old(Now()), old(log), Of(id), Now(), log, {})
      ensures table.Table() == Finalized(old(table.Table()), id, to)
      ensures if to == Refunded then GivenBack(old(table.Table()), id, table.Table()) else SameTally(old(table.Table()), table.Table())
    {
      FinalizeIsExact(table.Table(), id, to);
      if id != "" {
        OneAct(Now(), log, {id}, Settle(id, to));
      } else {
        NoAct(Now(), log, {});
      }
      var _ := table.SetState(id, to);
      if id != "" {
        log := log + [Settle(id, to)];
      }
    }

    /** enqueueDownloadWithAfter: a full queue refuses, and the charge stays in hand. */
    method TryEnqueue(id: ChargeId) returns (ok: bool)
      requires Valid()
      modifies this`queue, this`log
      ensures Valid() && Moves(old(Now()), old(log), Of(id), Now(), log, if ok then {} else Of(id))
      ensures ok == (|old(queue)| < capacity)
      ensures queue == if ok then old(queue) + [id] else old(queue)
    {
      if |queue| >= capacity {
        NoAct(Now(), log, Of(id));
        return false;
      }
      OneAct(Now(), log, Of(id), Enqueue(id));
      queue, log := queue + [id], log + [Enqueue(id)];
      return true;
    }

    /** A request of its own: queued, or refused and its charge given back. */
    method EnqueueOrRefund(id: ChargeId) returns (ok: bool)
      requires Valid()
      modifies this`queue, this`log, table
      ensures Valid() && Moves(old(Now()), old(log), Of(id), Now(), log, {})
      ensures ok == (|old(queue)| < capacity) && queue == if ok then old(queue) + [id] else old(queue)
      ensures if ok then table.Table() == old(table.Table()) else table.Table() == Finalized(old(table.Table()), id, Refunded)
      ensures if ok then SameTally(old(table.Table()), table.Table()) else GivenBack(old(table.Table()), id, table.Table())
    {
      ok := TryEnqueue(id);
      if !ok {
        ghost var st, l := Now(), log;
        Close(id, Refunded);
        Then(old(Now()), old(log), Of(id), st, l, Of(id), Now(), log, {});
      }
    }

    // ---- admission --------------------------------------------------------

    /** member: restriction mode applies to the user. Everybody else is admitted without a charge. */
    method AdmitRestricted(ask: Ask, kind: string, member: bool) returns (chargeID: ChargeId, ok: bool)
      requires Valid() && ask.newId != "" && ask.newId !in used
      modifies this`used, this`log, table
      ensures Valid() && Moves(old(Now()), old(log), {}, Now(), log, Of(chargeID))
      ensures old(used) <= used <= old(used) + {ask.newId}
      ensures ok == (!member || ask.user == 0 || Tally(old(table.quotaUsage), KeyOf(ask, kind)) < ask.limit)
      ensures chargeID == if ok && member && ask.user != 0 then ask.newId else ""
      ensures chargeID != "" ==> IsOpen(table.Table(), chargeID) && table.quotaCharges[chargeID].key == KeyOf(ask, kind)
      ensures Taken(old(table.Table()), KeyOf(ask, kind), chargeID != "", table.Table())
    {
      if !member {
        NoAct(Now(), log, {});
        return "", true;
      }
      chargeID, ok := CheckAndCharge(ask, kind);
      if !ok {
        chargeID := "";
      }
    }

    /** A charge made and closed in one call leaves a slot taken exactly when it was committed. */
    lemma MadeAndClosed(a: Ledger, key: Key, id: ChargeId, b: Ledger, to: State, c: Ledger)
      requires Taken(a, key, id != "", b) && (id != "" ==> IsOpen(b, id) && b.charges[id].key == key)
      requires if to == Refunded then GivenBack(b, id, c) else SameTally(b, c)
      requires id == "" ==> "" !in b.charges
      ensures Taken(a, key, id != "" && to != Refunded, c)
    {
      forall k ensures Tally(c.usage, k) == Tally(a.usage, k) + if id != "" && to != Refunded && k == key then 1 else 0 {
        assert Tally(b.usage, k) == Tally(a.usage, k) + if id != "" && k == key then 1 else 0;
        if to == Refunded {
          assert Tally(c.usage, k) + Slot(b, id, k) == Tally(b.usage, k);
        } else {
          assert Tally(b.usage, k) == Tally(c.usage, k);
        }
      }
    }

    /**
     The cached delivery of an album spends a slot; without one the slot goes back, since the rip that
     follows is charged on its own.
     */
    method TrySendCachedAlbumZipQuota(ask: Ask, member: bool, cached: bool) returns (finished: bool)
      requires Valid() && ask.newId != "" && ask.newId !in used
      modifies this`used, this`log, table
      ensures Valid() && Moves(old(Now()), old(log), {}, Now(), log, {})
      ensures var room := !member || ask.user == 0 || Tally(old(table.quotaUsage), KeyOf(ask, "album")) < ask.limit;
              && finished == (!room || cached)
              && Taken(old(table.Table()), KeyOf(ask, "album"), room && member && ask.user != 0 && cached, table.Table())
    {
      var chargeID, ok := AdmitRestricted(ask, "album", member);
      if !ok {
        return true;
      }
      ghost var st, l := Now(), log;
      Close(chargeID, if cached then Committed else Refunded);
      Then(old(Now()), old(log), {}, st, l, Of(chargeID), Now(), log, {});
      MadeAndClosed(old(table.Table()), KeyOf(ask, "album"), chargeID, st.mem, if cached then Committed else Refunded, table.Table());
      return cached;
    }

    // ---- enqueuing --------------------------------------------------------

    /** From the charge in hand on, albums and playlists take the same way. */
    method ServeOrEnqueue(id: ChargeId, dedups: bool, f: Foreign) returns (e: Ending)
      requires Valid()
      modifies this`queue, this`log, table
      ensures Valid() && Moves(old(Now()), old(log), Of(id), Now(), log, {})
      ensures e == if dedups && f.dedupHit then Deduplicated else if f.served then Served else if |old(queue)| < capacity then Queued else Refused
      ensures queue == if e.Queued? then old(queue) + [id] else old(queue)
      ensures table.Table() == if e.Queued? then old(table.Table()) else Finalized(old(table.Table()), id, if e.Served? then Committed else Refunded)
      ensures if e.Queued? || e.Served? then SameTally(old(table.Table()), table.Table()) else GivenBack(old(table.Table()), id, table.Table())
    {
      if dedups && f.dedupHit {
        Close(id, Refunded);
        return Deduplicated;
      }
      if f.served {
        Close(id, Committed);
        return Served;
      }
      var ok := EnqueueOrRefund(id);
      return if ok then Queued else Refused;
    }

    /** A member's slot is spent exactly when the album is served or queued. */
    method EnqueueAlbumDownload(albumID: string, ask: Ask, member: bool, dedups: bool, f: Foreign) returns (e: Ending)
      requires Valid() && ask.newId != "" && ask.newId !in used
      modifies this`used, this`queue, this`log, table
      ensures Valid() && Moves(old(Now()), old(log), {}, Now(), log, {})
      ensures e.Denied? <==> albumID != "" && member && ask.user != 0 && Tally(old(table.quotaUsage), KeyOf(ask, "album")) >= ask.limit
      ensures Taken(old(table.Table()), KeyOf(ask, "album"), member && ask.user != 0 && (e.Served? || e.Queued?), table.Table())
      ensures e.Queued? <==> |queue| == |old(queue)| + 1
    {
      if albumID == "" {
        NoAct(Now(), log, {});
        return Nothing;
      }
      var chargeID, admitted := AdmitRestricted(ask, "album", member);
      if !admitted {
        return Denied;
      }
      ghost var st, l := Now(), log;
      e := ServeOrEnqueue(chargeID, dedups, f);
      Then(old(Now()), old(log), {}, st, l, Of(chargeID), Now(), log, {});
      MadeAndClosed(old(table.Table()), KeyOf(ask, "album"), chargeID, st.mem, if e.Served? || e.Queued? then Committed else Refunded, table.Table());
    }

    /** carried is the charge of a deferred job, or "" for a request that is charged here. */
    method EnqueuePlaylistDownload(playlistID: string, ask: Ask, member: bool, dedups: bool, f: Foreign, carried: ChargeId) returns (e: Ending)
      requires Valid() && (carried == "" ==> ask.newId != "" && ask.newId !in used)
      modifies this`used, this`queue, this`log, table
      ensures Valid() && Moves(old(Now()), old(log), Of(carried), Now(), log, {})
      ensures old(used) <= used <= old(used) + {ask.newId}
      ensures !e.Deferred?
      ensures e.Denied? ==> carried == "" && member && ask.user != 0
      ensures carried == "" ==>
                Taken(old(table.Table()), KeyOf(ask, "playlist"), member && ask.user != 0 && (e.Served? || e.Queued?), table.Table())
      ensures carried != "" ==>
                if e.Served? || e.Queued? then SameTally(old(table.Table()), table.Table())
                else GivenBack(old(table.Table()), carried, table.Table())
      ensures e.Queued? <==> |queue| == |old(queue)| + 1
    {
      if playlistID == "" {
        Close(carried, Refunded);
        return Nothing;
      }
      var id := carried;
      if carried == "" {
        var admitted;
        id, admitted := AdmitRestricted(ask, "playlist", member);
        if !admitted {
          return Denied;
        }
      } else {
        NoAct(Now(), log, Of(carried));
      }
      ghost var st, l := Now(), log;
      e := ServeOrEnqueue(id, dedups, f);
      Then(old(Now()), old(log), Of(carried), st, l, Of(id), Now(), log, {});
      if carried == "" {
        MadeAndClosed(old(table.Table()), KeyOf(ask, "playlist"), id, st.mem, if e.Served? || e.Queued? then Committed else Refunded, table.Table());
      }
    }

    /** One job for a whole section of an artist; music videos are queued one by one, uncharged. */
    method RunArtistRipScoped(f: Foreign, carried: ChargeId) returns (e: Ending)
      requires Valid()
      modifies this`queue, this`log, table
      ensures Valid() && Moves(old(Now()), old(log), Of(carried), Now(), log, {})
      ensures !e.Served? && !e.Denied? && !e.Deferred?
      ensures e.Queued? <==> f.section.Some? && f.section.value != [] && !f.musicVideos && |old(queue)| < capacity
      ensures e.Queued? ==> queue == old(queue) + [carried]
      ensures if e.Queued? then SameTally(old(table.Table()), table.Table()) else GivenBack(old(table.Table()), carried, table.Table())
    {
      if f.section == None || f.section.value == [] {
        Close(carried, Refunded);
        return Unlisted;
      }
      if f.musicVideos {
        Close(carried, Refunded);
        RunArtistMusicVideos(f.section.value, old(Now()), old(log), Of(carried));
        return Unlisted;
      }
      var ok := EnqueueOrRefund(carried);
      return if ok then Queued else Refused;
    }

    method RunArtistMusicVideos(items: seq<string>, ghost st: Store, ghost l: seq<Act>, ghost held: set<ChargeId>)
      requires Valid() && Moves(st, l, held, Now(), log, {})
      modifies this`queue, this`log
      ensures Valid() && Moves(st, l, held, Now(), log, {})
    {
      for i := 0 to |items|
        invariant Valid() && Moves(st, l, held, Now(), log, {})
      {
        if items[i] == "" {
          continue;
        }
        ghost var st1, l1 := Now(), log;
        var _ := TryEnqueue("");
        Then(st, l, held, st1, l1, {}, Now(), log, {});
      }
    }

    // ---- deferred jobs ----------------------------------------------------

    /** A kind that is neither leaves the charge in hand: no such job is ever created. */
    method ReleaseJob(kind: string, resource: string, ask: Ask, member: bool, f: Foreign, carried: ChargeId) returns (e: Ending)
      requires Valid() && (carried == "" ==> ask.newId != "" && ask.newId !in used)
      modifies this`used, this`queue, this`log, table
      ensures Valid() && Moves(old(Now()), old(log), Of(carried), Now(), log, if kind in KINDS then {} else Of(carried))
      ensures old(used) <= used <= old(used) + {ask.newId}
      ensures !e.Deferred?
      ensures e.Denied? ==> carried == "" && member && ask.user != 0
      ensures kind in KINDS && carried != "" ==>
                if e.Served? || e.Queued? then SameTally(old(table.Table()), table.Table())
                else GivenBack(old(table.Table()), carried, table.Table())
      ensures kind !in KINDS ==> Now() == old(Now())
    {
      match kind {
        case "playlist" => e := EnqueuePlaylistDownload(resource, ask, member, true, f, carried);
        case "artist" => e := RunArtistRipScoped(f, carried);
        case _ =>
          NoAct(Now(), log, Of(carried));
          e := Nothing;
      }
    }

    /** Charged at submission: now in the sleep window the job is released at once, else it is deferred with its charge. */
    method ScheduleOrRun(job: Job, resource: string, ask: Ask, again: Ask, member: bool, donor: bool, inWindow: bool, f: Foreign) returns (e: Ending)
      requires Valid() && job.kind in KINDS && ask.newId != "" && ask.newId !in used
      requires again.user == ask.user && again.newId != "" && again.newId !in used && again.newId != ask.newId
      modifies this, table, schedule
      ensures Valid() && Moves(old(Now()), old(log), {}, Now(), log, {})
      ensures e.Denied? <==> !f.dedupHit && ask.user != 0 && Tally(old(table.quotaUsage), KeyOf(ask, job.kind)) >= ask.limit
      ensures ask.user != 0 ==>
                Taken(old(table.Table()), KeyOf(ask, job.kind), e.Served? || e.Queued? || e.Deferred?, table.Table())
      ensures schedule.scheduledJobs ==
              if e.Deferred? then Inserted(old(schedule.scheduledJobs), job.(charge := if ask.user == 0 then "" else ask.newId), donor)
              else old(schedule.scheduledJobs)
    {
      if f.dedupHit {
        NoAct(Now(), log, {});
        return Deduplicated;
      }
      var chargeID, ok := CheckAndCharge(ask, job.kind);
      if !ok {
        return Denied;
      }
      ghost var st, l := Now(), log;
      e := StartOrDefer(job.(charge := chargeID), resource, again, member, donor, inWindow, f);
      if chargeID != "" {
        MadeAndClosed(old(table.Table()), KeyOf(ask, job.kind), chargeID, st.mem,
                      if e.Served? || e.Queued? || e.Deferred? then Committed else Refunded, table.Table());
      }
      Then(old(Now()), old(log), {}, st, l, Of(chargeID), Now(), log, {});
    }

    method StartOrDefer(job: Job, resource: string, again: Ask, member: bool, donor: bool, inWindow: bool, f: Foreign) returns (e: Ending)
      requires Valid() && job.kind in KINDS && again.newId != "" && again.newId !in used
      modifies this, table, schedule
      ensures Valid() && Moves(old(Now()), old(log), Of(job.charge), Now(), log, {})
      ensures e.Denied? ==> job.charge == "" && again.user != 0
      ensures job.charge != "" ==>
                if e.Served? || e.Queued? || e.Deferred? then SameTally(old(table.Table()), table.Table())
                else GivenBack(old(table.Table()), job.charge, table.Table())
      ensures schedule.scheduledJobs == if e.Deferred? then Inserted(old(schedule.scheduledJobs), job, donor) else old(schedule.scheduledJobs)
    {
      if inWindow {
        e := ReleaseJob(job.kind, resource, again, member, f, job.charge);
      } else {
        ScheduleJob(job, donor);
        e := Deferred;
      }
    }

    method ScheduleJob(j: Job, donor: bool)
      requires Valid() && j.kind in KINDS
      modifies this`log, schedule
      ensures Valid() && Moves(old(Now()), old(log), Of(j.charge), Now(), log, {})
      ensures schedule.scheduledJobs == Inserted(old(schedule.scheduledJobs), j, donor)
    {
      OneAct(Now(), log, Of(j.charge), Defer(j, donor));
      InsertedKinds(schedule.scheduledJobs, j, donor);
      schedule.ScheduleJob(j, donor);
      log := log + [Defer(j, donor)];
    }

    lemma InsertedKinds(jobs: seq<Job>, j: Job, donor: bool)
      requires j.kind in KINDS && forall x :: x in jobs ==> x.kind in KINDS
      ensures forall x :: x in Inserted(jobs, j, donor) ==> x.kind in KINDS
    {
    }

    /** The first section of releaseDueJobs: the jobs that came due leave the list. */
    method TakeDueJobs(now: int)
      requires Valid()
      modifies this`due, schedule
      ensures Valid() && Now() == StoreAfter(Sys(old(Now()), map[]), ReleaseDue(now))
    {
      DueKinds(schedule.scheduledJobs, now);
      var jobs := schedule.ReleaseDueJobs(now);
      due := due + jobs;
    }

    lemma {:induction false} DueKinds(jobs: seq<Job>, now: int)
      requires forall x :: x in jobs ==> x.kind in KINDS
      ensures forall x :: x in Due(jobs, now) ==> x.kind in KINDS
      ensures forall x :: x in NotDue(jobs, now) ==> x.kind in KINDS
    {
      if jobs != [] {
        DueKinds(jobs[1..], now);
        assert jobs[0] in jobs;
      }
    }

    /** The rest of releaseDueJobs, job by job; asks are for jobs that carry no charge. */
    method DispatchDue(resource: nat -> string, asks: nat -> Ask, member: bool, f: nat -> Foreign)
      requires Valid() && forall i: nat, j: nat :: i < j ==> asks(i).newId != asks(j).newId
      requires forall i: nat :: asks(i).newId != "" && asks(i).newId !in used
      modifies this`used, this`queue, this`due, this`log, table
      ensures Valid() && due == [] && Moves(old(Now()), old(log), {}, Now(), log, {})
    {
      NoAct(Now(), log, {});
      var n := 0;
      while due != []
        invariant Valid() && Moves(old(Now()), old(log), {}, Now(), log, {})
        invariant forall i: nat :: n <= i ==> asks(i).newId != "" && asks(i).newId !in used
        decreases |due|
      {
        ghost var st, l := Now(), log;
        DispatchNext(resource(n), asks(n), member, f(n));
        Then(old(Now()), old(log), {}, st, l, {}, Now(), log, {});
        n := n + 1;
      }
    }

    method DispatchNext(resource: string, ask: Ask, member: bool, f: Foreign)
      requires Valid() && due != [] && ask.newId != "" && ask.newId !in used
      modifies this`used, this`queue, this`due, this`log, table
      ensures Valid() && due == old(due)[1..] && Moves(old(Now()), old(log), {}, Now(), log, {})
      ensures old(used) <= used <= old(used) + {ask.newId}
    {
      var j := due[0];
      OneAct(Now(), log, {}, TakeDue(j.charge));
      due := due[1..];
      log := log + [TakeDue(j.charge)];
      ghost var st, l := Now(), log;
      var _ := ReleaseJob(j.kind, resource, ask, member, f, j.charge);
      Then(old(Now()), old(log), {}, st, l, Of(j.charge), Now(), log, {});
    }

    /** A cancelled job gives its slot back. */
    method CancelScheduledJob(user: int, isAdmin: bool, jobID: string) returns (reply: CancelReply)
      requires Valid()
      modifies this`log, table, schedule
      ensures Valid() && Moves(old(Now()), old(log), {}, Now(), log, {})
      ensures reply.Cancelled? ==> GivenBack(old(table.Table()), reply.charge, table.Table())
      ensures !reply.Cancelled? ==> Now() == old(Now())
    {
      reply := schedule.CancelScheduledJob(user, isAdmin, jobID);
      if !reply.Cancelled? {
        NoAct(old(Now()), old(log), {});
        return;
      }
      ghost var i :| FirstOf(old(schedule.scheduledJobs), jobID, i)
        && schedule.scheduledJobs == old(schedule.scheduledJobs)[..i] + old(schedule.scheduledJobs)[i + 1..]
        && reply.charge == old(schedule.scheduledJobs)[i].charge;
      OneAct(old(Now()), old(log), {}, TakeJob(i, reply.charge));
      log := log + [TakeJob(i, reply.charge)];
      ghost var st, l := Now(), log;
      Close(reply.charge, Refunded);
      Then(old(Now()), old(log), {}, st, l, Of(reply.charge), Now(), log, {});
    }

    // ---- the queue --------------------------------------------------------

    /** The i-th request leaves the queue. */
    method TakeFromQueue(i: nat) returns (id: ChargeId)
      requires Valid() && i < |queue|
      modifies this`queue, this`log
      ensures Valid() && id == old(queue)[i] && queue == old(queue)[..i] + old(queue)[i + 1..]
      ensures Moves(old(Now()), old(log), {}, Now(), log, Of(id))
    {
      id := queue[i];
      OneAct(Now(), log, {}, TakeQueued(i, id));
      queue := queue[..i] + queue[i + 1..];
      log := log + [TakeQueued(i, id)];
    }

    /** The queued branch of cancelTask, for the request it finds. */
    method CancelQueued(i: nat)
      requires Valid() && i < |queue|
      modifies this`queue, this`log, table
      ensures Valid() && Moves(old(Now()), old(log), {}, Now(), log, {})
      ensures queue == old(queue)[..i] + old(queue)[i + 1..] && GivenBack(old(table.Table()), old(queue)[i], table.Table())
      ensures NoneOpened(old(table.Table()), table.Table())
    {
      var id := TakeFromQueue(i);
      ghost var st, l := Now(), log;
      Close(id, Refunded);
      Then(old(Now()), old(log), {}, st, l, Of(id), Now(), log, {});
    }

    /** cancelAllTasksLocked: hits are the charges of the requests that are running; their own closures then change nothing. */
    method CancelAll(hits: seq<ChargeId>)
      requires Valid()
      modifies this`queue, this`log, table
      ensures Valid() && queue == [] && Moves(old(Now()), old(log), {}, Now(), log, {})
      ensures AllClosed(hits, table.Table()) && NoneOpened(old(table.Table()), table.Table())
    {
      HitAll(hits);
      ghost var st, l := Now(), log;
      DrainQueue();
      Then(old(Now()), old(log), {}, st, l, {}, Now(), log, {});
    }

    method HitAll(hits: seq<ChargeId>)
      requires Valid()
      modifies this`log, table
      ensures Valid() && Moves(old(Now()), old(log), {}, Now(), log, {})
      ensures AllClosed(hits, table.Table()) && NoneOpened(old(table.Table()), table.Table())
    {
      NoAct(Now(), log, {});
      for i := 0 to |hits|
        invariant Valid() && Moves(old(Now()), old(log), {}, Now(), log, {})
        invariant AllClosed(hits[..i], table.Table()) && NoneOpened(old(table.Table()), table.Table())
      {
        ghost var st, l := Now(), log;
        HitOne(hits[i]);
        Then(old(Now()), old(log), {}, st, l, {}, Now(), log, {});
        OneMoreClosed(hits[..i], hits[i], st.mem, table.Table());
        assert hits[..i + 1] == hits[..i] + [hits[i]];
      }
      assert hits[..|hits|] == hits;
    }

    method DrainQueue()
      requires Valid()
      modifies this`queue, this`log, table
      ensures Valid() && queue == [] && Moves(old(Now()), old(log), {}, Now(), log, {})
      ensures NoneOpened(old(table.Table()), table.Table())
    {
      NoAct(Now(), log, {});
      while queue != []
        invariant Valid() && Moves(old(Now()), old(log), {}, Now(), log, {}) && NoneOpened(old(table.Table()), table.Table())
        decreases |queue|
      {
        ghost var st, l := Now(), log;
        CancelQueued(0);
        Then(old(Now()), old(log), {}, st, l, {}, Now(), log, {});
      }
    }

    method HitOne(id: ChargeId)
      requires Valid()
      modifies this`log, table
      ensures Valid() && Moves(old(Now()), old(log), {}, Now(), log, {})
      ensures table.Table() == Finalized(old(table.Table()), id, Refunded)
      ensures !IsOpen(table.Table(), id) && NoneOpened(old(table.Table()), table.Table())
    {
      FinalizeIsExact(table.Table(), id, Refunded);
      OneAct(Now(), log, {}, Hit(id));
      var _ := table.SetState(id, Refunded);
      log := log + [Hit(id)];
    }

    /** A request from the queue to the closure that settles it, whichever way its rip ends. */
    method Run(kind: Kind, e: Entry, attempt: Attempt, rs: seq<Release>, f: Facts) returns (v: Shared, end: FnEnd)
      requires Valid() && queue != []
      modifies this`queue, this`log, table
      ensures Valid() && Moves(old(Now()), old(log), {}, Now(), log, {})
      ensures end == EndOf(kind, e, attempt, rs) && queue == old(queue)[1..]
      ensures table.Table() == Finalized(old(table.Table()), old(queue)[0], Settled(kind, v, f))
      ensures old(queue)[0] != "" && old(IsOpen(table.Table(), queue[0])) ==>
                old(queue)[0] in table.quotaCharges &&
                table.quotaCharges[old(queue)[0]].state == if RefundDue(kind, e, attempt, rs, f) then Refunded else Committed
    {
      var id := TakeFromQueue(0);
      assert old(queue)[..0] + old(queue)[1..] == old(queue)[1..];
      ghost var st, l := Now(), log;
      if id == "" {
        NoAct(st, l, {});
      } else {
        OneAct(st, l, {id}, Settle(id, Refunded));
      }
      v, end := RunAndSettle(table, id, kind, e, attempt, rs, f);
      if id != "" {
        OneAct(st, l, {id}, Settle(id, Settled(kind, v, f)));
        log := log + [Settle(id, Settled(kind, v, f))];
      }
      Then(old(Now()), old(log), {}, st, l, Of(id), Now(), log, {});
    }
  }

  // ---- the calls as calls of the system -----------------------------------

  /** What every method above promises of its log is what a call of the system may do. */
  lemma ACallOfTheSystem(s: Sys, c: int, st: Store, log: seq<Act>, st': Store, log': seq<Act>)
    requires Moves(st, log, {}, st', log', {}) && c !in s.calls
    ensures Enabled(s, Begin(c, log'[|log|..]))
  {
  }

  /** Alone, such a call takes the store where the method took it, and returns with empty hands. */
  lemma {:induction false} CallRuns(s: Sys, c: int, st': Store)
    requires c in s.calls && Proper(s.calls[c].held, s.calls[c].todo) && Follows(s.st, s.calls[c].todo, st')
    ensures exists steps :: Legal(s, steps) && Exec(s, steps).st == st' && Exec(s, steps).calls.Keys == s.calls.Keys
              && Exec(s, steps).calls[c] == Call(HeldAtEnd(s.calls[c].held, s.calls[c].todo), [])
    decreases |s.calls[c].todo|
  {
    if s.calls[c].todo == [] {
      assert Legal(s, []) && Exec(s, []) == s;
    } else {
      var s1 := Apply(s, Do(c));
      CallRuns(s1, c, st');
      var rest :| Legal(s1, rest) && Exec(s1, rest).st == st' && Exec(s1, rest).calls.Keys == s1.calls.Keys
        && Exec(s1, rest).calls[c] == Call(HeldAtEnd(s1.calls[c].held, s1.calls[c].todo), []);
      assert ([Do(c)] + rest)[1..] == rest;
      assert Legal(s, [Do(c)] + rest) && Exec(s, [Do(c)] + rest) == Exec(s1, rest);
    }
  }
}
