/**
 Task lists of the data loader (dataloader/task.go), their split into batches (dataloader/dataloader.go)
 and the run of a batch (dataloader/batch_job.go), on the heap.
 */
module DataLoaderBatches {

  datatype TaskResult<V> = NotCompleted | Error | Value(v: V)

  class Task<V> {
    var result: TaskResult<V>
    var next: Task?<V>

    constructor ()
      ensures result == NotCompleted && next == null
    {
      result, next := NotCompleted, null;
    }

    /** The cell without concurrent callers: a task accepts one result. */
    method Complete(newResult: TaskResult<V>) returns (ok: bool)
      requires newResult != NotCompleted
      modifies this`result
      ensures ok <==> old(result) == NotCompleted
      ensures result == if ok then newResult else old(result)
    {
      ok := result.NotCompleted?;
      if ok { result := newResult; }
    }
  }

  // ---------------------------------------------------------------------------------------------
  // Task lists
  // ---------------------------------------------------------------------------------------------

  /** A list from `first` to `last`, both included; what follows `last` does not matter. */
  datatype TaskList<!V> = TaskList(first: Task?<V>, last: Task?<V>)

  /** The links run through `items` in order. */
  ghost predicate Linked<V>(items: seq<Task<V>>)
    reads items`next
  {
    && (forall i, j | 0 <= i < j < |items| :: items[i] != items[j])
    && (forall i | 0 <= i < |items| - 1 :: items[i].next == items[i + 1])
  }

  ghost predicate Lists<V>(list: TaskList<V>, items: seq<Task<V>>)
    reads items`next
  {
    && Linked(items)
    && (if items == [] then list.first == null && list.last == null
        else list.first == items[0] && list.last == items[|items| - 1])
  }

  /** Appends a task. */
  method Append<V>(list: TaskList<V>, task: Task<V>, ghost items: seq<Task<V>>) returns (r: TaskList<V>)
    requires Lists(list, items) && task !in items
    modifies items
    ensures Lists(r, items + [task]) && task.next == old(task.next)
    ensures forall t | t in items :: t.result == old(t.result)
  {
    if list.last == null {
      r := TaskList(task, task);
    } else {
      list.last.next := task;
      r := TaskList(list.first, task);
    }
  }

  /** The iterator stands before the task at position `k`. It takes the successor of the last task as
      its end, so it works on a part of a longer list. */
  class TaskIterator<V> {
    var cur: Task?<V>
    const end: Task?<V>

    ghost predicate At(items: seq<Task<V>>, k: nat)
      reads this, items`next
    {
      && Linked(items) && k <= |items| && end !in items
      && (items != [] ==> items[|items| - 1].next == end)
      && cur == if k < |items| then items[k] else end
    }

    constructor (list: TaskList<V>, ghost items: seq<Task<V>>)
      requires Lists(list, items) && (items != [] ==> list.last.next !in items)
      ensures At(items, 0)
    {
      cur := list.first;
      end := if list.first == null then null else list.last.next;
    }

    method Next(ghost items: seq<Task<V>>, ghost k: nat) returns (task: Task?<V>, done: bool)
      requires At(items, k)
      modifies this
      ensures done <==> k == |items|
      ensures !done ==> task == items[k] && At(items, k + 1)
    {
      if cur == end { return null, true; }
      task, done := cur, false;
      cur := cur.next;
    }
  }

  // ---------------------------------------------------------------------------------------------
  // Batches
  // ---------------------------------------------------------------------------------------------

  /** The batches of a queue: all of it when `max` is zero, otherwise `max` tasks at a time. */
  function Batches<T>(q: seq<T>, max: nat): (r: seq<seq<T>>)
    decreases |q|
  {
    if max == 0 || |q| <= max then [q] else [q[..max]] + Batches(q[max..], max)
  }

  function Concat<T>(parts: seq<seq<T>>): seq<T> {
    if parts == [] then [] else parts[0] + Concat(parts[1..])
  }

  /** The batches are the queue in order, none is empty, none is too large and only the last is short. */
  lemma {:induction false} BatchesPartition<T>(q: seq<T>, max: nat)
    requires q != []
    ensures var r := Batches(q, max);
            && Concat(r) == q && r != []
            && (forall b | b in r :: b != [])
            && (max == 0 ==> |r| == 1)
            && (max > 0 ==> |r[|r| - 1]| <= max && forall i | 0 <= i < |r| - 1 :: |r[i]| == max)
    decreases |q|
  {
    var r := Batches(q, max);
    if max == 0 || |q| <= max {
      assert r[1..] == [] && q + [] == q;
    } else {
      var rest := Batches(q[max..], max);
      BatchesPartition(q[max..], max);
      assert r[1..] == rest && q == q[..max] + q[max..] && r[0] == q[..max];
      forall b | b in r ensures b != [] {
        assert b == q[..max] || b in rest;
      }
      assert r[|r| - 1] == rest[|rest| - 1];
      forall i | 0 <= i < |r| - 1 ensures |r[i]| == max {
        if i > 0 { assert r[i] == rest[i - 1]; }
      }
    }
  }

  /** Every batch of a linked queue is linked. */
  lemma {:induction false} BatchesLinked<V>(items: seq<Task<V>>, max: nat, k: nat)
    requires Linked(items) && k < |Batches(items, max)|
    ensures Linked(Batches(items, max)[k])
    decreases |items|
  {
    if max == 0 || |items| <= max {
    } else if k > 0 {
      SliceLinked(items, max, |items|);
      BatchesLinked(items[max..], max, k - 1);
    } else {
      SliceLinked(items, 0, max);
    }
  }

  lemma SliceLinked<V>(items: seq<Task<V>>, start: nat, end: nat)
    requires Linked(items) && start <= end <= |items|
    ensures Linked(items[start..end])
  {
  }

  predicate Ends<V>(list: TaskList<V>, items: seq<Task<V>>) {
    items != [] && list == TaskList(items[0], items[|items| - 1])
  }

  /** The splitting loop of dispatchQueue. */
  method DispatchQueue<V>(tasks: TaskList<V>, maxBatchSize: nat, ghost items: seq<Task<V>>) returns (jobs: seq<TaskList<V>>)
    requires Lists(tasks, items) && items != [] && tasks.last.next == null
    ensures var parts := Batches(items, maxBatchSize);
            |jobs| == |parts| && forall i | 0 <= i < |jobs| :: Lists(jobs[i], parts[i])
  {
    if maxBatchSize == 0 {
      jobs := [tasks];
    } else {
      jobs := Split(tasks, maxBatchSize, items);
    }
    forall i | 0 <= i < |jobs| ensures Linked(Batches(items, maxBatchSize)[i]) {
      BatchesLinked(items, maxBatchSize, i);
    }
  }

  method Split<V>(tasks: TaskList<V>, maxBatchSize: nat, ghost items: seq<Task<V>>) returns (jobs: seq<TaskList<V>>)
    requires Lists(tasks, items) && items != [] && tasks.last.next == null && maxBatchSize > 0
    ensures AllEnd(jobs, Batches(items, maxBatchSize))
  {
    var firstTask := tasks.first;
    var task := tasks.first;
    var counter := maxBatchSize;
    jobs := [];
    ghost var all, parts := Batches(items, maxBatchSize), [];
    ghost var i, start := 0, 0;
    NothingCut(items, maxBatchSize);
    while true
      invariant 0 <= start <= i < |items| && task == items[i] && firstTask == items[start]
      invariant counter == maxBatchSize - (i - start) && counter > 0
      invariant Cut(all, items, jobs, parts, start, maxBatchSize)
      decreases |items| - i
    {
      var nextTask := task.next;
      assert nextTask == if i + 1 < |items| then items[i + 1] else null;
      counter := counter - 1;
      if counter == 0 {
        // Dispatch one job; the next one starts from the next task.
        CutNext(all, items, jobs, parts, start, maxBatchSize);
        jobs := jobs + [TaskList(firstTask, task)];
        parts := parts + [items[start..i + 1]];
        counter := maxBatchSize;
        firstTask := nextTask;
        start := i + 1;
      }
      if nextTask == null {
        if firstTask != null {
          CutLast(all, items, jobs, parts, start, maxBatchSize);
          jobs := jobs + [TaskList(firstTask, task)];
          parts := parts + [items[start..]];
        }
        break;
      }
      task := nextTask;
      i := i + 1;
    }
  }

  predicate AllEnd<V>(jobs: seq<TaskList<V>>, parts: seq<seq<Task<V>>>) {
    |jobs| == |parts| && forall k | 0 <= k < |jobs| :: Ends(jobs[k], parts[k])
  }

  /** The jobs are the first batches of `all`; the others are those of the tasks from `start` on, if any. */
  ghost predicate Cut<V>(all: seq<seq<Task<V>>>, items: seq<Task<V>>, jobs: seq<TaskList<V>>, parts: seq<seq<Task<V>>>,
                         start: nat, max: nat)
  {
    && start <= |items| && AllEnd(jobs, parts)
    && all == if start == |items| then parts else parts + Batches(items[start..], max)
  }

  lemma NothingCut<V>(items: seq<Task<V>>, max: nat)
    requires items != []
    ensures Cut(Batches(items, max), items, [], [], 0, max)
  {
    assert items[0..] == items && [] + Batches(items, max) == Batches(items, max);
  }

  /** One more full batch. */
  lemma CutNext<V>(all: seq<seq<Task<V>>>, items: seq<Task<V>>, jobs: seq<TaskList<V>>, parts: seq<seq<Task<V>>>,
                   start: nat, max: nat)
    requires 0 < max && start + max <= |items| && Cut(all, items, jobs, parts, start, max)
    ensures Cut(all, items, jobs + [TaskList(items[start], items[start + max - 1])], parts + [items[start..start + max]],
                start + max, max)
  {
    NextBatch(all, items, parts, start, max);
    OneMoreEnds(jobs, parts, TaskList(items[start], items[start + max - 1]), items, start, start + max);
  }

  /** The last batch, which is not full. */
  lemma CutLast<V>(all: seq<seq<Task<V>>>, items: seq<Task<V>>, jobs: seq<TaskList<V>>, parts: seq<seq<Task<V>>>,
                   start: nat, max: nat)
    requires start < |items| <= start + max && Cut(all, items, jobs, parts, start, max)
    ensures Cut(all, items, jobs + [TaskList(items[start], items[|items| - 1])], parts + [items[start..]], |items|, max)
  {
    LastBatch(items[start..], max);
    assert items[start..|items|] == items[start..];
    OneMoreEnds(jobs, parts, TaskList(items[start], items[|items| - 1]), items, start, |items|);
  }

  lemma OneMoreEnds<V>(jobs: seq<TaskList<V>>, parts: seq<seq<Task<V>>>, job: TaskList<V>, items: seq<Task<V>>, start: nat, end: nat)
    requires AllEnd(jobs, parts) && start < end <= |items| && job == TaskList(items[start], items[end - 1])
    ensures AllEnd(jobs + [job], parts + [items[start..end]])
  {
    assert Ends(job, items[start..end]);
  }

  lemma LastBatch<T>(q: seq<T>, max: nat)
    requires max == 0 || |q| <= max
    ensures Batches(q, max) == [q]
  {
  }

  /** One more full batch, the last one if nothing is left. */
  lemma NextBatch<T>(all: seq<seq<T>>, q: seq<T>, parts: seq<seq<T>>, start: nat, max: nat)
    requires 0 < max && start + max <= |q| && all == parts + Batches(q[start..], max)
    ensures var parts' := parts + [q[start..start + max]];
            all == if start + max == |q| then parts' else parts' + Batches(q[start + max..], max)
  {
    var rest := q[start..];
    assert rest[..max] == q[start..start + max];
    if start + max < |q| {
      assert rest[max..] == q[start + max..];
      assert Batches(rest, max) == [rest[..max]] + Batches(rest[max..], max);
      assert parts + ([rest[..max]] + Batches(rest[max..], max)) == parts + [rest[..max]] + Batches(rest[max..], max);
    } else {
      assert rest[..max] == rest;
    }
  }

  // ---------------------------------------------------------------------------------------------
  // Running a batch
  // ---------------------------------------------------------------------------------------------

  /** Stands for the batch loader, which completes the tasks of its choice. */
  method Load<V>(items: seq<Task<V>>, loaded: map<Task<V>, TaskResult<V>>)
    requires forall t | t in loaded :: t in items && loaded[t] != NotCompleted
    modifies items`result
    ensures forall i | 0 <= i < |items| ::
              items[i].result == AfterLoad(old(items[i].result), items[i], loaded)
  {
    forall t | t in loaded && t.result.NotCompleted? {
      t.result := loaded[t];
    }
  }

  function AfterLoad<V>(was: TaskResult<V>, t: Task<V>, loaded: map<Task<V>, TaskResult<V>>): TaskResult<V> {
    if was.NotCompleted? && t in loaded then loaded[t] else was
  }

  /** Completes what is left with an error. */
  method FailRest<V>(tasks: TaskList<V>, ghost items: seq<Task<V>>)
    requires Lists(tasks, items) && items != [] && tasks.last.next !in items
    modifies items`result
    ensures forall i | 0 <= i < |items| ::
              items[i].result == if old(items[i].result) == NotCompleted then Error else old(items[i].result)
  {
    var iter := new TaskIterator(tasks, items);
    ghost var k := 0;
    while true
      invariant iter.At(items, k)
      invariant forall i | k <= i < |items| :: items[i].result == old(items[i].result)
      invariant forall i | 0 <= i < k ::
                  items[i].result == if old(items[i].result) == NotCompleted then Error else old(items[i].result)
      decreases |items| - k
    {
      var task, done := iter.Next(items, k);
      if done { break; }
      if task.result.NotCompleted? {
        var _ := task.Complete(Error);
      }
      k := k + 1;
    }
  }

  /** BatchLoadJob.Run: what the loader leaves incomplete gets an error. Afterwards every task of the
      batch is completed, and nothing that was completed is overwritten. */
  method RunJob<V>(tasks: TaskList<V>, loaded: map<Task<V>, TaskResult<V>>, items: seq<Task<V>>)
    requires Lists(tasks, items) && items != [] && tasks.last.next !in items
    requires forall t | t in loaded :: t in items && loaded[t] != NotCompleted
    modifies items`result
    ensures forall i | 0 <= i < |items| ::
              items[i].result == if old(items[i].result) != NotCompleted then old(items[i].result)
                                 else if items[i] in loaded then loaded[items[i]] else Error
    ensures forall i | 0 <= i < |items| :: items[i].result != NotCompleted
  {
    Load(items, loaded);
    FailRest(tasks, items);
  }
}
