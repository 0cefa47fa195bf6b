/**
 Deferred jobs (bot/admin_tasks.go) and the acts of the calls that deal with quota charges: each is done under
 one lock, on the ledger, the deferred jobs or the queue. A call, and a rip from its start to the closure after
 it, is a path of acts.
 */
module ChargeActs {
  import opened QuotaLedger

  // ---- deferred jobs ------------------------------------------------------

  datatype Job = Job(id: string, user: int, kind: string, releaseAt: int, charge: ChargeId)

  /** A donor's job goes in just before the last one, anybody else's at the end. */
  function Inserted(jobs: seq<Job>, j: Job, donor: bool): seq<Job> {
    if donor && |jobs| > 0 then jobs[..|jobs| - 1] + [j] + jobs[|jobs| - 1..] else jobs + [j]
  }

  function Due(jobs: seq<Job>, now: int): seq<Job> {
    if jobs == [] then [] else
      (if jobs[0].releaseAt > now then [] else [jobs[0]]) + Due(jobs[1..], now)
  }

  function NotDue(jobs: seq<Job>, now: int): seq<Job> {
    if jobs == [] then [] else
      (if jobs[0].releaseAt > now then [jobs[0]] else []) + NotDue(jobs[1..], now)
  }

  lemma {:induction false} DueSnoc(jobs: seq<Job>, j: Job, now: int)
    ensures Due(jobs + [j], now) == Due(jobs, now) + if j.releaseAt > now then [] else [j]
  {
    var tail := if j.releaseAt > now then [] else [j];
    if jobs == [] {
      assert jobs + [j] == [j] && [j][1..] == [];
    } else {
      DueSnoc(jobs[1..], j, now);
      assert (jobs + [j])[1..] == jobs[1..] + [j] && (jobs + [j])[0] == jobs[0];
      var head := if jobs[0].releaseAt > now then [] else [jobs[0]];
      assert head + (Due(jobs[1..], now) + tail) == (head + Due(jobs[1..], now)) + tail;
    }
  }

  lemma {:induction false} NotDueSnoc(jobs: seq<Job>, j: Job, now: int)
    ensures NotDue(jobs + [j], now) == NotDue(jobs, now) + if j.releaseAt > now then [j] else []
  {
    var tail := if j.releaseAt > now then [j] else [];
    if jobs == [] {
      assert jobs + [j] == [j] && [j][1..] == [];
    } else {
      NotDueSnoc(jobs[1..], j, now);
      assert (jobs + [j])[1..] == jobs[1..] + [j] && (jobs + [j])[0] == jobs[0];
      var head := if jobs[0].releaseAt > now then [jobs[0]] else [];
      assert head + (NotDue(jobs[1..], now) + tail) == (head + NotDue(jobs[1..], now)) + tail;
    }
  }

  ghost predicate FirstOf(jobs: seq<Job>, jobID: string, i: int) {
    0 <= i < |jobs| && jobs[i].id == jobID && forall k :: 0 <= k < i ==> jobs[k].id != jobID
  }

  datatype CancelReply = NotFound | NotYours | Cancelled(charge: ChargeId)

  class Schedule {
    var scheduledJobs: seq<Job>

    constructor ()
      ensures scheduledJobs == []
    {
      scheduledJobs := [];
    }

    method ScheduleJob(j: Job, donor: bool)
      modifies this
      ensures scheduledJobs == Inserted(old(scheduledJobs), j, donor)
    {
      if donor && |scheduledJobs| > 0 {
        var i := |scheduledJobs| - 1;
        scheduledJobs := scheduledJobs[..i] + ([j] + scheduledJobs[i..]);
      } else {
        scheduledJobs := scheduledJobs + [j];
      }
    }

    /** Splits off the jobs whose time has come, in list order. */
    method ReleaseDueJobs(now: int) returns (due: seq<Job>)
      modifies this
      ensures due == Due(old(scheduledJobs), now)
      ensures scheduledJobs == NotDue(old(scheduledJobs), now)
    {
      due := [];
      var remaining := [];
      for i := 0 to |scheduledJobs|
        invariant scheduledJobs == old(scheduledJobs)
        invariant due == Due(scheduledJobs[..i], now)
        invariant remaining == NotDue(scheduledJobs[..i], now)
      {
        var j := scheduledJobs[i];
        DueSnoc(scheduledJobs[..i], j, now);
        NotDueSnoc(scheduledJobs[..i], j, now);
        assert scheduledJobs[..i + 1] == scheduledJobs[..i] + [j];
        if j.releaseAt > now {
          remaining := remaining + [j];
        } else {
          due := due + [j];
        }
      }
      assert scheduledJobs[..|scheduledJobs|] == scheduledJobs;
      if |due| > 0 {
        scheduledJobs := remaining;
      } else {
        NothingDue(scheduledJobs, now);
      }
    }

    /** Removes the first job of that id for its requester or an admin, and hands back its charge. */
    method CancelScheduledJob(user: int, isAdmin: bool, jobID: string) returns (reply: CancelReply)
      modifies this
      ensures reply.NotFound? <==> forall j :: j in old(scheduledJobs) ==> j.id != jobID
      ensures !reply.Cancelled? ==> scheduledJobs == old(scheduledJobs)
      ensures reply.Cancelled? ==>
                exists i :: FirstOf(old(scheduledJobs), jobID, i) && (old(scheduledJobs)[i].user == user || isAdmin) &&
                  scheduledJobs == old(scheduledJobs)[..i] + old(scheduledJobs)[i + 1..] && reply.charge == old(scheduledJobs)[i].charge
    {
      var idx := -1;
      for i := 0 to |scheduledJobs|
        invariant idx == -1
        invariant scheduledJobs == old(scheduledJobs)
        invariant forall k :: 0 <= k < i ==> scheduledJobs[k].id != jobID
      {
        if scheduledJobs[i].id == jobID {
          idx := i;
          break;
        }
      }
      if idx == -1 {
        return NotFound;
      }
      var job := scheduledJobs[idx];
      if job.user != user && !isAdmin {
        return NotYours;
      }
      scheduledJobs := scheduledJobs[..idx] + scheduledJobs[idx + 1..];
      return Cancelled(job.charge);
    }
  }

  lemma {:induction false} NothingDue(jobs: seq<Job>, now: int)
    requires Due(jobs, now) == []
    ensures NotDue(jobs, now) == jobs
  {
    if jobs != [] {
      NothingDue(jobs[1..], now);
    }
  }

  // ---- acts ---------------------------------------------------------------

  datatype Act =
    | Make(id: ChargeId, key: Key, limit: nat)
    | Settle(id: ChargeId, to: State)
    | Hit(id: ChargeId)                     // the refund of a running request's charge by somebody else
    | Enqueue(id: ChargeId)
    | Defer(j: Job, donor: bool)
    | TakeJob(i: nat, id: ChargeId)         // off the deferred list
    | TakeDue(id: ChargeId)                 // the next job that came due
    | TakeQueued(i: nat, id: ChargeId)      // out of the queue: to run it, or to cancel it

  datatype Store = Store(mem: Ledger, jobs: seq<Job>, due: seq<Job>, queue: seq<ChargeId>, used: set<ChargeId>)

  /** Ids are fresh when charged; a refused charge or a full queue is no act. */
  predicate Possible(st: Store, a: Act) {
    match a
    case Make(id, key, limit) => id != "" && id !in st.used && Tally(st.mem.usage, key) < limit
    case Settle(_, to) => to != Open
    case Hit(_) => true
    case Enqueue(_) => true
    case Defer(_, _) => true
    case TakeJob(i, id) => i < |st.jobs| && st.jobs[i].charge == id
    case TakeDue(id) => st.due != [] && st.due[0].charge == id
    case TakeQueued(i, id) => i < |st.queue| && st.queue[i] == id
  }

  function After(st: Store, a: Act): Store
    requires Possible(st, a)
  {
    match a
    case Make(id, key, limit) => st.(mem := Admit(st.mem, key, limit, id), used := st.used + {id})
    case Settle(id, to) => st.(mem := Finalized(st.mem, id, to))
    case Hit(id) => st.(mem := Finalized(st.mem, id, Refunded))
    case Enqueue(id) => st.(queue := st.queue + [id])
    case Defer(j, donor) => st.(jobs := Inserted(st.jobs, j, donor))
    case TakeJob(i, _) => st.(jobs := st.jobs[..i] + st.jobs[i + 1..])
    case TakeDue(_) => st.(due := st.due[1..])
    case TakeQueued(i, _) => st.(queue := st.queue[..i] + st.queue[i + 1..])
  }

  function Of(id: ChargeId): set<ChargeId> {
    if id == "" then {} else {id}
  }

  /** What an act takes into the hands of its call, and what it gives away: closed, queued or deferred. */
  function Takes(a: Act): set<ChargeId> {
    match a
    case Make(id, _, _) => Of(id)
    case TakeJob(_, id) => Of(id)
    case TakeDue(id) => Of(id)
    case TakeQueued(_, id) => Of(id)
    case _ => {}
  }

  function Gives(a: Act): set<ChargeId> {
    match a
    case Settle(id, _) => Of(id)
    case Enqueue(id) => Of(id)
    case Defer(j, _) => Of(j.charge)
    case _ => {}
  }

  /** A call settles or hands on only what it holds, and takes only what it does not. */
  predicate Fits(held: set<ChargeId>, a: Act) {
    Gives(a) <= held && Takes(a) !! held
  }

  function HeldAfter(held: set<ChargeId>, a: Act): set<ChargeId> {
    held - Gives(a) + Takes(a)
  }

  predicate Proper(held: set<ChargeId>, path: seq<Act>)
    decreases |path|
  {
    path == [] || (Fits(held, path[0]) && Proper(HeldAfter(held, path[0]), path[1..]))
  }

  function HeldAtEnd(held: set<ChargeId>, path: seq<Act>): set<ChargeId>
    decreases |path|
  {
    if path == [] then held else HeldAtEnd(HeldAfter(held, path[0]), path[1..])
  }

  /** The whole duty of a call: whatever it ever holds it closes or hands on, and it ends with empty hands. */
  predicate Discharges(held: set<ChargeId>, path: seq<Act>) {
    Proper(held, path) && HeldAtEnd(held, path) == {}
  }

  function Comings(path: seq<Act>, id: ChargeId): nat {
    if path == [] then 0 else (if id in Takes(path[0]) then 1 else 0) + Comings(path[1..], id)
  }

  function Goings(path: seq<Act>, id: ChargeId): nat {
    if path == [] then 0 else (if id in Gives(path[0]) then 1 else 0) + Goings(path[1..], id)
  }

  /** So every charge a call comes to hold is closed or handed on exactly once each time. */
  lemma {:induction false} DischargedOnce(held: set<ChargeId>, path: seq<Act>, id: ChargeId)
    requires Discharges(held, path)
    ensures Goings(path, id) == Comings(path, id) + if id in held then 1 else 0
    decreases |path|
  {
    if path != [] {
      DischargedOnce(HeldAfter(held, path[0]), path[1..], id);
    }
  }
}
