/**
 The default task queue of the worker pool (workerPoolTaskQueue): a ring linked through the tasks
 themselves, of which the queue knows the last one. It refines a first-in first-out sequence.
 */
module WorkerPoolQueue {
  import opened WorkerPool

  class Task {
    var next: Task?

    constructor ()
      ensures next == null
    {
      next := null;
    }
  }

  /** What the mutex section of Poll comes to. */
  datatype Polled = Took(task: Task) | MustWait | Nothing

  class TaskQueue {
    var tail: Task?
    var closed: bool // pollCond is nil
    ghost var contents: seq<Task>

    /** The links run through the contents in order and from the last task to the first. */
    ghost predicate Valid()
      reads this, contents
    {
      && (forall i, j | 0 <= i < j < |contents| :: contents[i] != contents[j])
      && (tail == null <==> contents == [])
      && (contents != [] ==> tail == contents[|contents| - 1] && contents[|contents| - 1].next == contents[0])
      && (forall i | 0 <= i < |contents| - 1 :: contents[i].next == contents[i + 1])
    }

    constructor ()
      ensures Valid() && contents == [] && !closed
    {
      tail, closed, contents := null, false, [];
    }

    predicate Empty()
      requires Valid()
      reads this, contents
      ensures Empty() <==> contents == []
    {
      tail == null
    }

    /** Appends the task, unless the queue is closed; `signal` tells whether a waiting Poll is woken. */
    method Push(task: Task) returns (ok: bool, signal: bool)
      requires Valid() && task !in contents
      modifies this, task, contents
      ensures Valid() && closed == old(closed) && ok == !closed
      ensures contents == if ok then old(contents) + [task] else old(contents)
      ensures signal <==> ok && old(contents) == []
    {
      if closed { return false, false; }
      var empty := Empty();
      if empty {
        task.next := task;
      } else {
        task.next := tail.next;
        tail.next := task;
      }
      tail := task;
      contents := contents + [task];
      return true, empty;
    }

    /** Takes the first task; `waited` tells whether the wait is over. */
    method Poll(waited: bool) returns (r: Polled)
      requires Valid()
      modifies this, contents
      ensures Valid() && closed == old(closed)
      ensures old(contents) != [] ==> r == Took(old(contents[0])) && contents == old(contents[1..])
      ensures old(contents) == [] ==> r == (if closed || waited then Nothing else MustWait) && contents == []
    {
      if Empty() {
        return if closed || waited then Nothing else MustWait;
      }
      var head := tail.next;
      if tail == head {
        tail := null;
      } else {
        tail.next := head.next;
      }
      assert head == contents[0];
      contents := contents[1..];
      return Took(head);
    }

    /** Deletes the task wherever it is in the ring. */
    method Remove(task: Task) returns (found: bool)
      requires Valid()
      modifies this, contents
      ensures Valid() && closed == old(closed)
      ensures found <==> task in old(contents)
      ensures contents == Without(old(contents), task)
      ensures found ==> task.next == null
    {
      if Empty() { return false; }
      var head := tail.next;
      var prevTask := head;
      ghost var i := 0;
      while true
        invariant Valid() && contents == old(contents) && closed == old(closed) && tail == old(tail) && tail != null
        invariant 0 <= i < |contents| && prevTask == contents[i] && head == contents[0]
        invariant forall j | 0 < j <= i :: contents[j] != task
        decreases |contents| - i
      {
        var nextTask := prevTask.next;
        ghost var k := if i + 1 < |contents| then i + 1 else 0;
        assert nextTask == contents[k];
        if nextTask == task {
          WithoutAt(contents, task, k);
          Unlink(prevTask, task, head, k);
          return true;
        }
        prevTask := nextTask;
        if prevTask == head {
          break;
        }
        i := i + 1;
      }
      WithoutNothing(contents, task);
      return false;
    }

    /** Takes `task`, which is at position `k` behind `prev`, out of the ring. */
    method Unlink(prev: Task, task: Task, head: Task, ghost k: nat)
      requires Valid() && k < |contents| && task == contents[k] && head == contents[0]
      requires prev == contents[if k == 0 then |contents| - 1 else k - 1]
      modifies this, contents
      ensures Valid() && contents == old(contents[..k]) + old(contents[k + 1..]) && closed == old(closed)
      ensures task.next == null
    {
      prev.next := task.next;
      if task == tail {
        if tail == head {
          tail := null;
        } else {
          tail := prev;
        }
      }
      task.next := null;
      contents := contents[..k] + contents[k + 1..];
    }

    method Close()
      requires Valid()
      modifies this`closed
      ensures Valid() && closed
    {
      closed := true;
    }
  }

  /** Among distinct tasks the one at position `k` is the one that Without takes out. */
  lemma {:induction false} WithoutAt<T>(q: seq<T>, t: T, k: nat)
    requires k < |q| && q[k] == t && forall i, j | 0 <= i < j < |q| :: q[i] != q[j]
    ensures Without(q, t) == q[..k] + q[k + 1..]
  {
    if k > 0 {
      WithoutAt(q[1..], t, k - 1);
      assert q[..k] == [q[0]] + q[1..][..k - 1];
    }
  }

  lemma {:induction false} WithoutNothing<T>(q: seq<T>, t: T)
    requires t !in q
    ensures Without(q, t) == q
  {
    if q != [] {
      WithoutNothing(q[1..], t);
    }
  }
}
