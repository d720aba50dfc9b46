/** What polling does to a task table `map<Id, Task>`. Every generation of the runtime
    polls the same way: the task is removed from the table, polled once, and put back
    under the same id only if it is still pending. */
module TaskTable {
  import opened Futures

  /** The task table after one poll of `id`, where `resume` is the tasks' bodies. */
  function PollEntry<K, T>(tasks: map<K, T>, id: K, resume: T -> Step<T, ()>): (after: map<K, T>)
    ensures id !in tasks ==> after == tasks
    ensures id in tasks ==> (id in after <==> resume(tasks[id]).poll.Pending?)
    ensures id in after ==> id in tasks && after[id] == resume(tasks[id]).resumed
    ensures after.Keys <= tasks.Keys
    ensures forall k :: k in tasks && k != id ==> k in after && after[k] == tasks[k]
  {
    if id !in tasks then tasks
    else
      var step := resume(tasks[id]);
      var taken := tasks - {id};
      if step.poll.Pending? then taken[id := step.resumed] else taken
  }

  /** The task table after polling `ids` one after the other, in order. Polling never adds
      a task. */
  function PollAll<K, T>(tasks: map<K, T>, ids: seq<K>, resume: T -> Step<T, ()>): (after: map<K, T>)
    ensures after.Keys <= tasks.Keys
  {
    if ids == [] then tasks
    else PollEntry(PollAll(tasks, ids[..|ids| - 1], resume), ids[|ids| - 1], resume)
  }

  /** While a task is being polled it is out of the table, so a nested poll of the same
      id finds nothing and changes nothing. */
  lemma NestedPollIsNoop<K, T>(tasks: map<K, T>, id: K, resume: T -> Step<T, ()>)
    ensures PollEntry(tasks - {id}, id, resume) == tasks - {id}
  {
  }

  /** Polling two batches in a row is polling their concatenation. */
  lemma {:induction false} PollAllAppend<K, T>(tasks: map<K, T>, a: seq<K>, b: seq<K>, resume: T -> Step<T, ()>)
    ensures PollAll(tasks, a + b, resume) == PollAll(PollAll(tasks, a, resume), b, resume)
    decreases |b|
  {
    if b == [] {
      assert a + b == a;
    } else {
      var b' := b[..|b| - 1];
      assert (a + b)[..|a + b| - 1] == a + b';
      assert (a + b)[|a + b| - 1] == b[|b| - 1];
      PollAllAppend(tasks, a, b', resume);
    }
  }

  /** A task whose id is not in the batch keeps its place and its state. */
  lemma {:induction false} PollAllUntouched<K, T>(tasks: map<K, T>, ids: seq<K>, k: K, resume: T -> Step<T, ()>)
    requires k !in ids
    ensures k in PollAll(tasks, ids, resume) <==> k in tasks
    ensures k in tasks ==> PollAll(tasks, ids, resume)[k] == tasks[k]
    decreases |ids|
  {
    if ids != [] {
      assert k != ids[|ids| - 1];
      PollAllUntouched(tasks, ids[..|ids| - 1], k, resume);
    }
  }

  /** A stale or duplicate id in a batch is harmless: if its task is already gone when the
      id comes up (never spawned, or completed earlier in the batch), the batch ends as if
      the id were not there. */
  lemma StaleIdHarmless<K, T>(tasks: map<K, T>, before: seq<K>, id: K, after: seq<K>, resume: T -> Step<T, ()>)
    requires id !in PollAll(tasks, before, resume)
    ensures PollAll(tasks, before + [id] + after, resume) == PollAll(tasks, before + after, resume)
  {
    PollAllAppend(tasks, before + [id], after, resume);
    PollAllAppend(tasks, before, [id], resume);
    PollAllAppend(tasks, before, after, resume);
    assert [id][..0] == [];
  }

  /** A task that reports Ready is gone for good: polling its id again later in the batch
      is the stale case. */
  lemma {:induction false} CompletedTaskGone<K, T>(tasks: map<K, T>, ids: seq<K>, id: K, resume: T -> Step<T, ()>)
    requires id in tasks && resume(tasks[id]).poll.Ready?
    ensures id !in PollAll(tasks, [id] + ids, resume)
    decreases |ids|
  {
    if ids == [] {
      assert [id] + ids == [id];
      assert [id][..0] == [];
    } else {
      var ids' := ids[..|ids| - 1];
      assert ([id] + ids)[..|[id] + ids| - 1] == [id] + ids';
      CompletedTaskGone(tasks, ids', id, resume);
    }
  }
}
