/**
 The queue operations of bot/telegram_bot.go as code: a bounded channel, which can only be popped
 at the front and pushed at the back, its display mirror, and the per-user counts. Cancelling a
 queued task rotates the whole channel once.
 */
module TaskQueues {
  import opened Scheduler

  datatype Reply = Stopped(req: Request) | Denied | NotFound

  predicate MayStop(r: Request, issuer: int, isAdmin: bool) {
    r.user == 0 || issuer == r.user || isAdmin
  }

  class TaskQueue {
    const capacity: nat
    var downloadQueue: seq<Request>
    var queuedReqs: seq<Request>
    var userTaskCount: map<int, nat>

    constructor (capacity: nat)
      ensures this.capacity == capacity && downloadQueue == [] && queuedReqs == [] && userTaskCount == map[]
    {
      this.capacity, downloadQueue, queuedReqs, userTaskCount := capacity, [], [], map[];
    }

    /** hand is what the scheduler goroutine has received and not started. */
    ghost predicate Valid(hand: seq<Request>)
      reads this
    {
      && queuedReqs == hand + downloadQueue
      && Distinct(queuedReqs)
      && |downloadQueue| <= capacity
    }

    /** Refuses when the channel is full; channel and mirror grow together. */
    method Enqueue(r: Request, ghost hand: seq<Request>) returns (ok: bool)
      requires Valid(hand) && forall x :: x in queuedReqs ==> x.id != r.id
      modifies this
      ensures Valid(hand)
      ensures ok == (|old(downloadQueue)| < capacity)
      ensures downloadQueue == old(downloadQueue) + if ok then [r] else []
      ensures userTaskCount == if ok then Raised(old(userTaskCount), r.user) else old(userTaskCount)
    {
      if |downloadQueue| >= capacity {
        return false;
      }
      downloadQueue := downloadQueue + [r];
      queuedReqs := queuedReqs + [r];
      if r.user != 0 {
        userTaskCount := userTaskCount[r.user := Tasks(userTaskCount, r.user) + 1];
      }
      return true;
    }

    /** Takes the task of that id, which is the only one, out of the mirror. */
    method RemoveQueuedReqLocked(r: Request)
      requires Distinct(queuedReqs) && r in queuedReqs
      modifies this`queuedReqs
      ensures queuedReqs == Keep(old(queuedReqs), {r})
    {
      for i := 0 to |queuedReqs|
        invariant queuedReqs == old(queuedReqs)
        invariant forall k :: 0 <= k < i ==> queuedReqs[k].id != r.id
      {
        if queuedReqs[i].id == r.id {
          assert queuedReqs[i] == r by {
            SameIdSameRequest(queuedReqs, queuedReqs[i], r);
          }
          KeepAtIndex(queuedReqs, i);
          queuedReqs := queuedReqs[..i] + queuedReqs[i + 1..];
          return;
        }
      }
    }

    /**
     The queued branch of /stop: pop each task once; push it back, unless it is the target and the
     issuer may stop it. One full turn leaves all other tasks in their order.
     */
    method CancelQueuedTask(taskID: string, issuer: int, isAdmin: bool, ghost hand: seq<Request>) returns (reply: Reply)
      requires Valid(hand)
      modifies this
      ensures Valid(hand)
      ensures reply.Stopped? ==>
                && reply.req in old(downloadQueue) && reply.req.id == taskID && MayStop(reply.req, issuer, isAdmin)
                && downloadQueue == Keep(old(downloadQueue), {reply.req})
                && userTaskCount == Lowered(old(userTaskCount), reply.req.user)
      ensures reply.Denied? ==> exists r :: r in old(downloadQueue) && r.id == taskID && !MayStop(r, issuer, isAdmin)
      ensures reply.NotFound? ==> forall r :: r in old(downloadQueue) ==> r.id != taskID
      ensures !reply.Stopped? ==> downloadQueue == old(downloadQueue) && userTaskCount == old(userTaskCount)
    {
      ghost var start := downloadQueue;
      DistinctParts(hand, start);
      ReplyMeans(start, taskID, issuer, isAdmin);
      assert forall x :: x in start ==> x in queuedReqs;
      reply := Rotate(taskID, issuer, isAdmin);
      if reply.Stopped? {
        AfterTurn(hand, start, {reply.req});
      }
    }

    /** Pops one task, and pushes it back unless it is the target and may be stopped. */
    method RotateOne(taskID: string, issuer: int, isAdmin: bool, reply0: Reply) returns (reply: Reply)
      requires downloadQueue != []
      requires downloadQueue[0].id == taskID ==> Distinct(queuedReqs) && downloadQueue[0] in queuedReqs
      modifies this
      ensures var req, rest := old(downloadQueue)[0], old(downloadQueue)[1..];
              if req.id == taskID && MayStop(req, issuer, isAdmin) then
                && reply == Stopped(req) && downloadQueue == rest && queuedReqs == Keep(old(queuedReqs), {req})
                && userTaskCount == Lowered(old(userTaskCount), req.user)
              else
                && reply == (if req.id == taskID then Denied else reply0)
                && downloadQueue == rest + [req] && queuedReqs == old(queuedReqs) && userTaskCount == old(userTaskCount)
    {
      reply := reply0;
      var req := downloadQueue[0];
      downloadQueue := downloadQueue[1..];
      if req.id != taskID {
        downloadQueue := downloadQueue + [req];
      } else if !MayStop(req, issuer, isAdmin) {
        downloadQueue := downloadQueue + [req];
        reply := Denied;
      } else {
        RemoveQueuedReqLocked(req);
        userTaskCount := Lowered(userTaskCount, req.user);
        reply := Stopped(req);
      }
    }

    /** Pops as many tasks as the channel held on entry, and pushes back all but a stopped target. */
    method Rotate(taskID: string, issuer: int, isAdmin: bool) returns (reply: Reply)
      requires Distinct(queuedReqs) && Distinct(downloadQueue) && forall x :: x in downloadQueue ==> x in queuedReqs
      modifies this
      ensures reply == ReplyTo(old(downloadQueue), taskID, issuer, isAdmin)
      ensures downloadQueue == if reply.Stopped? then Keep(old(downloadQueue), {reply.req}) else old(downloadQueue)
      ensures queuedReqs == if reply.Stopped? then Keep(old(queuedReqs), {reply.req}) else old(queuedReqs)
      ensures userTaskCount == if reply.Stopped? then Lowered(old(userTaskCount), reply.req.user) else old(userTaskCount)
    {
      reply := NotFound;
      var queueLen := |downloadQueue|;
      ghost var start, mirror := downloadQueue, queuedReqs;
      ghost var at := IndexOf(start, taskID);
      ghost var hit := at < |start| && MayStop(start[at], issuer, isAdmin);
      IndexOfIsOnly(start, taskID);
      for i := 0 to queueLen
        invariant reply == if i <= at then NotFound else if hit then Stopped(start[at]) else Denied
        invariant downloadQueue == start[i..] + PushedBack(start, i, at, hit)
        invariant queuedReqs == if i <= at || !hit then mirror else Keep(mirror, {start[at]})
        invariant userTaskCount == if i <= at || !hit then old(userTaskCount) else Lowered(old(userTaskCount), start[at].user)
      {
        TurnNext(start, i, at, hit);
        assert downloadQueue[0] == start[i] && (start[i].id == taskID <==> i == at);
        reply := RotateOne(taskID, issuer, isAdmin, reply);
      }
      TurnDone(start, at, hit);
      assert start[queueLen..] == [];
    }
  }

  function ReplyTo(queue: seq<Request>, taskID: string, issuer: int, isAdmin: bool): Reply {
    var at := IndexOf(queue, taskID);
    if at >= |queue| then NotFound
    else if MayStop(queue[at], issuer, isAdmin) then Stopped(queue[at]) else Denied
  }

  lemma ReplyMeans(queue: seq<Request>, taskID: string, issuer: int, isAdmin: bool)
    requires Distinct(queue)
    ensures var reply := ReplyTo(queue, taskID, issuer, isAdmin);
            && (reply.Stopped? ==> reply.req in queue && reply.req.id == taskID && MayStop(reply.req, issuer, isAdmin))
            && (reply.Denied? ==> exists r :: r in queue && r.id == taskID && !MayStop(r, issuer, isAdmin))
            && (reply.NotFound? ==> forall r :: r in queue ==> r.id != taskID)
  {
    IndexOfIsOnly(queue, taskID);
  }

  /** The position of the first task of that id, or the length if there is none. */
  function IndexOf(xs: seq<Request>, id: string): nat {
    if xs == [] || xs[0].id == id then 0 else 1 + IndexOf(xs[1..], id)
  }

  lemma {:induction false} IndexOfIsOnly(xs: seq<Request>, id: string)
    requires Distinct(xs)
    ensures IndexOf(xs, id) <= |xs|
    ensures forall k :: 0 <= k < |xs| ==> (xs[k].id == id <==> k == IndexOf(xs, id))
  {
    if xs != [] && xs[0].id != id {
      IndexOfIsOnly(xs[1..], id);
      forall k | 0 <= k < |xs| ensures xs[k].id == id <==> k == IndexOf(xs, id) {
        assert k > 0 ==> xs[1..][k - 1] == xs[k];
      }
    }
  }

  /** What the rotation has put back when i tasks have been popped and the one at `at` is dropped. */
  function PushedBack(xs: seq<Request>, i: nat, at: nat, hit: bool): seq<Request>
    requires i <= |xs|
  {
    if i <= at || !hit then xs[..i] else xs[..at] + xs[at + 1..i]
  }

  lemma TurnNext(xs: seq<Request>, i: nat, at: nat, hit: bool)
    requires i < |xs|
    ensures var popped := (xs[i..] + PushedBack(xs, i, at, hit))[1..];
            xs[i + 1..] + PushedBack(xs, i + 1, at, hit) == if hit && i == at then popped else popped + [xs[i]]
  {
    var p := PushedBack(xs, i, at, hit);
    assert (xs[i..] + p)[1..] == xs[i + 1..] + p;
    if hit && i == at {
      assert PushedBack(xs, i + 1, at, hit) == p;
    } else {
      assert PushedBack(xs, i + 1, at, hit) == p + [xs[i]];
    }
  }

  lemma TurnDone(xs: seq<Request>, at: nat, hit: bool)
    requires Distinct(xs) && (hit ==> at < |xs|)
    ensures PushedBack(xs, |xs|, at, hit) == if hit then Keep(xs, {xs[at]}) else xs
  {
    assert xs[..|xs|] == xs;
    if hit {
      KeepAtIndex(xs, at);
      assert xs[at + 1..|xs|] == xs[at + 1..];
    }
  }

  lemma AfterTurn(hand: seq<Request>, queue: seq<Request>, gone: set<Request>)
    requires Distinct(hand + queue) && forall x :: x in gone ==> x in queue
    ensures Keep(hand + queue, gone) == hand + Keep(queue, gone) && Distinct(Keep(hand + queue, gone))
    ensures |Keep(queue, gone)| <= |queue|
    ensures gone == {} ==> Keep(queue, gone) == queue
  {
    DistinctParts(hand, queue);
    KeepConcat(hand, queue, gone);
    KeepElements(hand, gone);
    KeepElements(queue, gone);
    KeepElements(hand + queue, gone);
    KeepShorter(queue, gone);
  }

  lemma {:induction false} KeepShorter(xs: seq<Request>, gone: set<Request>)
    ensures |Keep(xs, gone)| <= |xs|
  {
    if xs != [] {
      KeepShorter(xs[1..], gone);
    }
  }

  lemma {:induction false} KeepAtIndex(xs: seq<Request>, i: nat)
    requires Distinct(xs) && i < |xs|
    ensures Keep(xs, {xs[i]}) == xs[..i] + xs[i + 1..]
  {
    if i == 0 {
      assert xs == [xs[0]] + xs[1..];
      DropFront(xs[0], xs[1..]);
    } else {
      KeepAtIndex(xs[1..], i - 1);
      assert xs[1..][i - 1] == xs[i] && xs[1..][i..] == xs[i + 1..];
      assert [xs[0]] + xs[1..][..i - 1] == xs[..i];
    }
  }
}
