/**
 The size-1 gate of bot/mtproto.go that an upload fills before its first attempt and empties when it ends,
 however it ends, and what this makes of many uploads at once: their transfers never interleave. What is
 transferred is a parameter.
 */
module UploadGate {

  const GATE_SIZE := 1

  datatype Act<E> = Take | Transfer(ev: E) | Give

  /** What one upload does at the gate and in between: nothing, or everything inside one pair of take and give. */
  ghost predicate Bracketed<E>(acts: seq<Act<E>>) {
    acts == [] || (acts[0].Take? && Closing(acts[1..]))
  }

  /** The rest of an upload that holds the gate. */
  ghost predicate Closing<E>(acts: seq<Act<E>>) {
    && acts != [] && acts[|acts| - 1].Give?
    && forall i :: 0 <= i < |acts| - 1 ==> acts[i].Transfer?
  }

  /** The channel, with the acts of the upload that uses it. */
  class Gate<E> {
    var buffered: nat
    ghost var trace: seq<Act<E>>

    constructor ()
      ensures buffered == 0 && trace == []
    {
      buffered, trace := 0, [];
    }

    /** Returns once there is room or the context is done; when both are, either may win. */
    method Acquire(ctxDone: bool) returns (ok: bool)
      requires buffered < GATE_SIZE || ctxDone
      modifies this
      ensures ok ==> old(buffered) < GATE_SIZE && buffered == old(buffered) + 1 && trace == old(trace) + [Take]
      ensures !ok ==> ctxDone && buffered == old(buffered) && trace == old(trace)
    {
      if buffered >= GATE_SIZE {
        return false;
      }
      if ctxDone {
        if * {
          return false;
        }
      }
      buffered := buffered + 1;
      trace := trace + [Take];
      return true;
    }

    method Release()
      requires buffered > 0
      modifies this
      ensures buffered == old(buffered) - 1 && trace == old(trace) + [Give]
    {
      buffered := buffered - 1;
      trace := trace + [Give];
    }

    /** Something goes over the network: only while the gate is held. */
    ghost method Note(ev: E)
      requires buffered == GATE_SIZE
      modifies this`trace
      ensures trace == old(trace) + [Transfer(ev)]
    {
      trace := trace + [Transfer(ev)];
    }
  }

  ghost function Transfers<E>(evs: seq<E>): (acts: seq<Act<E>>)
    ensures |acts| == |evs| && forall i :: 0 <= i < |evs| ==> acts[i] == Transfer(evs[i])
  {
    seq(|evs|, i requires 0 <= i < |evs| => Transfer(evs[i]))
  }

  lemma TransfersConcat<E>(a: seq<E>, b: seq<E>)
    ensures Transfers(a + b) == Transfers(a) + Transfers(b)
  {
  }

  // ---- many uploads -------------------------------------------------------

  /** What each upload still has to do, and what was done, by whom. */
  datatype Uploads<E> = Uploads(buffered: nat, todo: map<int, seq<Act<E>>>, history: seq<(int, Act<E>)>)

  ghost predicate Enabled<E>(u: Uploads<E>, task: int) {
    && task in u.todo && u.todo[task] != []
    && match u.todo[task][0]
       case Take => u.buffered < GATE_SIZE
       case Transfer(_) => true
       case Give => u.buffered > 0
  }

  ghost function After<E>(u: Uploads<E>, task: int): Uploads<E>
    requires Enabled(u, task)
  {
    var a := u.todo[task][0];
    Uploads(match a case Take => u.buffered + 1 case Transfer(_) => u.buffered case Give => u.buffered - 1,
            u.todo[task := u.todo[task][1..]], u.history + [(task, a)])
  }

  /** The uploads that are inside their bracket. */
  ghost function Inside<E>(todo: map<int, seq<Act<E>>>): set<int> {
    set x | x in todo && todo[x] != [] && !todo[x][0].Take?
  }

  /** The acts of one upload are next to each other. */
  ghost predicate Contiguous<E>(history: seq<(int, Act<E>)>) {
    forall i, j, k :: 0 <= i < j < k < |history| && history[i].0 == history[k].0 ==> history[j].0 == history[i].0
  }

  ghost predicate Orderly<E>(u: Uploads<E>) {
    && (forall x :: x in u.todo ==> Bracketed(u.todo[x]) || Closing(u.todo[x]))
    && u.buffered == |Inside(u.todo)| <= GATE_SIZE
    && (forall i :: 0 <= i < |u.history| ==> u.history[i].0 in u.todo && (u.todo[u.history[i].0] == [] || u.history[i].0 in Inside(u.todo)))
    && (forall i, j :: 0 <= i < j < |u.history| && u.history[i].0 != u.history[j].0 ==> u.todo[u.history[i].0] == [])
    && Contiguous(u.history)
  }

  lemma OneInside<E>(todo: map<int, seq<Act<E>>>, a: int, b: int)
    requires |Inside(todo)| <= 1 && a in Inside(todo) && b in Inside(todo)
    ensures a == b
  {
    assert |Inside(todo) - {a}| == 0;
    assert Inside(todo) == {a} + (Inside(todo) - {a}) == {a};
  }

  lemma InsideAfter<E>(todo: map<int, seq<Act<E>>>, task: int)
    requires task in todo && todo[task] != [] && (Bracketed(todo[task]) || Closing(todo[task]))
    ensures Inside(todo[task := todo[task][1..]]) ==
            match todo[task][0] case Take => Inside(todo) + {task} case Transfer(_) => Inside(todo) case Give => Inside(todo) - {task}
    ensures Bracketed(todo[task][1..]) || Closing(todo[task][1..])
    ensures !todo[task][0].Take? ==> task in Inside(todo)
    ensures todo[task][0].Take? ==> task !in Inside(todo)
  {
    var rest := todo[task][1..];
    assert !todo[task][0].Take? && rest != [] ==> rest[0] == todo[task][1];
  }

  /** An upload that can act is the only one that has begun and not ended. */
  lemma OthersAreOver<E>(u: Uploads<E>, task: int, i: nat)
    requires Orderly(u) && Enabled(u, task) && i < |u.history| && u.history[i].0 != task
    ensures u.todo[u.history[i].0] == []
  {
    var a := u.history[i].0;
    InsideAfter(u.todo, task);
    assert u.todo[task][0].Take? ==> |Inside(u.todo)| == 0 && a !in Inside(u.todo);
    if u.todo[a] != [] && !u.todo[task][0].Take? {
      OneInside(u.todo, a, task);
    }
  }

  lemma ActKeepsOrderly<E>(u: Uploads<E>, task: int)
    requires Orderly(u) && Enabled(u, task)
    ensures Orderly(After(u, task))
  {
    InsideAfter(u.todo, task);
    var u' := After(u, task);
    forall i | 0 <= i < |u.history| && u.history[i].0 != task ensures u.todo[u.history[i].0] == [] {
      OthersAreOver(u, task, i);
    }
    forall i | 0 <= i < |u'.history|
      ensures u'.history[i].0 in u'.todo && (u'.todo[u'.history[i].0] == [] || u'.history[i].0 in Inside(u'.todo))
    {
      if u'.history[i].0 == task && u'.todo[task] != [] {
        assert !u'.todo[task][0].Take?;
      }
    }
  }

  ghost predicate Run<E>(u: Uploads<E>, tasks: seq<int>)
    decreases |tasks|
  {
    tasks == [] || (Enabled(u, tasks[0]) && Run(After(u, tasks[0]), tasks[1..]))
  }

  ghost function Ran<E>(u: Uploads<E>, tasks: seq<int>): Uploads<E>
    requires Run(u, tasks)
    decreases |tasks|
  {
    if tasks == [] then u else Ran(After(u, tasks[0]), tasks[1..])
  }

  lemma {:induction false} RunKeepsOrderly<E>(u: Uploads<E>, tasks: seq<int>)
    requires Orderly(u) && Run(u, tasks)
    ensures Orderly(Ran(u, tasks))
    decreases |tasks|
  {
    if tasks != [] {
      ActKeepsOrderly(u, tasks[0]);
      RunKeepsOrderly(After(u, tasks[0]), tasks[1..]);
    }
  }

  lemma NobodyInside<E>(todo: map<int, seq<Act<E>>>)
    requires forall x :: x in todo ==> Bracketed(todo[x])
    ensures Inside(todo) == {} && Orderly(Uploads(0, todo, []))
  {
    forall x ensures x !in Inside(todo) {
      assert x in todo ==> Bracketed(todo[x]);
    }
    assert |Inside(todo)| == 0;
  }

  /**
   Any number of uploads, each bracketed as the code brackets them, in any interleaving the gate allows:
   what one of them transfers is never interrupted by another, and at most one holds the gate.
   */
  lemma OneUploadAtATime<E>(todo: map<int, seq<Act<E>>>, tasks: seq<int>)
    requires forall x :: x in todo ==> Bracketed(todo[x])
    requires Run(Uploads(0, todo, []), tasks)
    ensures Contiguous(Ran(Uploads(0, todo, []), tasks).history)
    ensures |Inside(Ran(Uploads(0, todo, []), tasks).todo)| <= 1
  {
    NobodyInside(todo);
    RunKeepsOrderly(Uploads(0, todo, []), tasks);
  }

  lemma HasMember(s: set<int>)
    ensures s == {} || exists x :: x in s
  {
    if forall x :: x !in s {
      assert s == {};
    }
  }

  /** Whoever holds the gate can always go on, so nobody waits for ever on an upload that is over. */
  lemma HolderCanAct<E>(todo: map<int, seq<Act<E>>>, tasks: seq<int>, task: int)
    requires forall x :: x in todo ==> Bracketed(todo[x])
    requires Run(Uploads(0, todo, []), tasks) && task in Ran(Uploads(0, todo, []), tasks).todo
    requires Ran(Uploads(0, todo, []), tasks).todo[task] != []
    ensures var u := Ran(Uploads(0, todo, []), tasks);
            Enabled(u, task) || exists x :: x in Inside(u.todo) && x != task && Enabled(u, x)
  {
    NobodyInside(todo);
    RunKeepsOrderly(Uploads(0, todo, []), tasks);
    var u := Ran(Uploads(0, todo, []), tasks);
    InsideAfter(u.todo, task);
    var inside := Inside(u.todo);
    assert task in inside ==> |inside| >= 1 by {
      if task in inside {
        assert |inside - {task}| + 1 == |inside|;
      }
    }
    if !Enabled(u, task) && u.todo[task][0].Take? {
      assert |inside| == 1 && inside != {};
      HasMember(inside);
      var x :| x in inside;
      assert x in u.todo && Enabled(u, x);
    }
  }
}
