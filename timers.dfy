/**
 * The scene clock's `delayedCall`, modelled as an explicit queue of pending
 * tasks. A task records the time at which it is due and which callback it runs.
 * An object that schedules callbacks keeps its own queue; firing a callback
 * removes its task from the queue.
 */
module Timers {
  datatype Task<A> = Task(dueAt: int, action: A)

  /** Number of pending tasks that run callback `a`. */
  function Count<A(==)>(q: seq<Task<A>>, a: A): (n: nat)
    ensures n <= |q|
  {
    if q == [] then 0
    else (if q[0].action == a then 1 else 0) + Count(q[1..], a)
  }

  /** The queue without its k-th task (the task that has just fired). */
  function RemoveAt<A>(q: seq<Task<A>>, k: nat): (r: seq<Task<A>>)
    requires k < |q|
    ensures |r| == |q| - 1
    ensures forall i :: 0 <= i < k ==> r[i] == q[i]
    ensures forall i :: k <= i < |r| ==> r[i] == q[i + 1]
  {
    q[..k] + q[k + 1..]
  }

  lemma {:induction false} CountConcat<A>(p: seq<Task<A>>, q: seq<Task<A>>, a: A)
    ensures Count(p + q, a) == Count(p, a) + Count(q, a)
  {
    if p == [] {
      assert p + q == q;
    } else {
      assert (p + q)[1..] == p[1..] + q;
      CountConcat(p[1..], q, a);
    }
  }

  /** Scheduling one more task adds one to the count of its own callback only. */
  lemma CountSchedule<A>(q: seq<Task<A>>, t: Task<A>, a: A)
    ensures Count(q + [t], a) == Count(q, a) + (if t.action == a then 1 else 0)
  {
    CountConcat(q, [t], a);
    assert [t][1..] == [];
  }

  /** Firing the k-th task removes exactly one task of its own callback. */
  lemma CountFire<A>(q: seq<Task<A>>, k: nat, a: A)
    requires k < |q|
    ensures Count(RemoveAt(q, k), a) == Count(q, a) - (if q[k].action == a then 1 else 0)
  {
    assert q == q[..k] + q[k..];
    CountConcat(q[..k], q[k..], a);
    CountConcat(q[..k], q[k + 1..], a);
    assert q[k..][1..] == q[k + 1..];
  }
}
