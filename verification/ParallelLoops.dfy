/** Parallel loops over the pool: the results and effects are those of the sequential loop. */
module ParallelLoops {
  import opened ThreadPool
  import opened PoolInvariants
  import opened PoolHistory
  import opened PoolWaiting
  import opened PoolProgress
  import opened Blocks
  import opened PoolClass

  // --- A call among other callers ----------------------------------------------------------

  /** `futures` are the tasks that one call submitted for the blocks of `b`, in block order. */
  ghost predicate Submitted(s: State, futures: seq<TaskId>, b: Layout) {
    && |futures| == b.numBlocks
    && Increasing(futures)
    && (forall k :: 0 <= k < |futures| ==>
          futures[k] < |s.submitted| && s.submitted[futures[k]] == Block(Start(b, k), End(b, k)))
  }

  lemma {:induction false} SubmittedGrows(s: State, steps: seq<Step>)
    requires ValidRun(s, steps)
    ensures s.submitted <= Final(s, steps).submitted
    decreases |steps|
  {
    if steps != [] {
      assert s.submitted <= Apply(s, steps[0]).submitted;
      SubmittedGrows(Apply(s, steps[0]), steps[1..]);
    }
  }

  /** `at` are the places in a run where a caller submits the blocks of `b`, one after the other; any
      other steps, submissions of other callers included, may come in between. */
  ghost predicate SubmitsBlocks(steps: seq<Step>, at: seq<nat>, b: Layout) {
    && |at| == b.numBlocks
    && Increasing(at)
    && (forall k :: 0 <= k < |at| ==> at[k] < |steps| && steps[at[k]] == Submit(Block(Start(b, k), End(b, k))))
  }

  ghost function FutureOf(s: State, steps: seq<Step>, place: nat): TaskId
    requires ValidRun(s, steps) && place < |steps|
  {
    assert steps == steps[..place] + steps[place..];
    RunConcat(s, steps[..place], steps[place..]);
    |Final(s, steps[..place]).submitted|
  }

  lemma OneFuture(s: State, steps: seq<Step>, place: nat, task: Task)
    requires ValidRun(s, steps) && place < |steps| && steps[place] == Submit(task)
    ensures FutureOf(s, steps, place) < |Final(s, steps).submitted|
    ensures Final(s, steps).submitted[FutureOf(s, steps, place)] == task
  {
    var before, after := steps[..place], steps[place..];
    assert steps == before + after;
    RunConcat(s, before, after);
    SubmittedGrows(Apply(Final(s, before), steps[place]), after[1..]);
  }

  lemma FuturesIncrease(s: State, steps: seq<Step>, p: nat, q: nat)
    requires ValidRun(s, steps) && p < q < |steps| && steps[p].Submit?
    ensures FutureOf(s, steps, p) < FutureOf(s, steps, q)
  {
    var front := steps[..q];
    assert steps == front + steps[q..];
    RunConcat(s, front, steps[q..]);
    assert front[..p] == steps[..p];
    OneFuture(s, front, p, steps[p].task);
  }

  /** However a call is interleaved, its futures name its blocks, in block order. */
  lemma InterleavedCall(s: State, steps: seq<Step>, at: seq<nat>, b: Layout) returns (futures: seq<TaskId>)
    requires ValidRun(s, steps) && SubmitsBlocks(steps, at, b)
    ensures Submitted(Final(s, steps), futures, b)
    ensures forall k :: 0 <= k < |at| ==> futures[k] == FutureOf(s, steps, at[k])
  {
    futures := seq(|at|, k requires 0 <= k < |at| => FutureOf(s, steps, at[k]));
    forall k | 0 <= k < |at|
      ensures futures[k] < |Final(s, steps).submitted|
      ensures Final(s, steps).submitted[futures[k]] == Block(Start(b, k), End(b, k))
    {
      OneFuture(s, steps, at[k], Block(Start(b, k), End(b, k)));
    }
    forall j, k | 0 <= j < k < |at|
      ensures futures[j] < futures[k]
    {
      FuturesIncrease(s, steps, at[j], at[k]);
    }
  }

  // --- Promises ----------------------------------------------------------------------------

  /** The promises set by the tasks that are done, when a block task returns `f(start, end)`. */
  function Promises<R>(submitted: seq<Task>, done: seq<TaskId>, f: (int, int) -> R): map<TaskId, R> {
    if done == [] then map[]
    else
      var id := done[|done| - 1];
      var before := Promises(submitted, done[..|done| - 1], f);
      if id < |submitted| && submitted[id].Block? then
        before[id := f(submitted[id].start, submitted[id].end)]
      else
        before
  }

  lemma {:induction false} PromiseKept<R>(submitted: seq<Task>, done: seq<TaskId>, f: (int, int) -> R, id: TaskId)
    requires id in done && id < |submitted| && submitted[id].Block?
    ensures id in Promises(submitted, done, f)
    ensures Promises(submitted, done, f)[id] == f(submitted[id].start, submitted[id].end)
  {
    if done[|done| - 1] != id {
      assert done == done[..|done| - 1] + [done[|done| - 1]];
      PromiseKept(submitted, done[..|done| - 1], f, id);
    }
  }

  /** `multi_future::get`: the values of the futures, in the order of the futures. */
  method Get<R>(futures: seq<TaskId>, promises: map<TaskId, R>) returns (results: seq<R>)
    requires forall k :: 0 <= k < |futures| ==> futures[k] in promises
    ensures |results| == |futures|
    ensures forall k :: 0 <= k < |futures| ==> results[k] == promises[futures[k]]
  {
    results := [];
    for i := 0 to |futures|
      invariant |results| == i
      invariant forall k :: 0 <= k < i ==> results[k] == promises[futures[k]]
    {
      results := results + [promises[futures[i]]];
    }
  }

  // --- The sequential loop -----------------------------------------------------------------

  /** What `for (i = start; i < end; ++i)` maps the indices to. */
  function Loop<R>(start: int, end: int, body: int -> R): (r: seq<R>)
    decreases end - start
  {
    if start >= end then [] else Loop(start, end - 1, body) + [body(end - 1)]
  }

  method RunLoop<R>(start: int, end: int, body: int -> R) returns (r: seq<R>)
    ensures r == Loop(start, end, body)
  {
    r := [];
    var i := start;
    while i < end
      invariant if start <= end then start <= i <= end else i == start
      invariant r == Loop(start, i, body)
    {
      r := r + [body(i)];
      i := i + 1;
    }
  }

  lemma {:induction false} LoopConcat<R>(a: int, b: int, c: int, body: int -> R)
    requires a <= b <= c
    ensures Loop(a, b, body) + Loop(b, c, body) == Loop(a, c, body)
    decreases c - b
  {
    if b == c {
      assert Loop(a, b, body) + [] == Loop(a, b, body);
    } else {
      LoopConcat(a, b, c - 1, body);
      assert Loop(a, b, body) + (Loop(b, c - 1, body) + [body(c - 1)])
          == (Loop(a, b, body) + Loop(b, c - 1, body)) + [body(c - 1)];
    }
  }

  function Flatten<R>(parts: seq<seq<R>>): seq<R> {
    if parts == [] then [] else Flatten(parts[..|parts| - 1]) + parts[|parts| - 1]
  }

  /** Loops over adjacent ranges, cut at `cuts`, concatenate to the loop over the whole. */
  lemma {:induction false} FlattenCuts<R>(cuts: seq<int>, parts: seq<seq<R>>, body: int -> R)
    requires |cuts| == |parts| + 1
    requires forall k :: 0 <= k < |parts| ==> cuts[k] <= cuts[k + 1] && parts[k] == Loop(cuts[k], cuts[k + 1], body)
    ensures cuts[0] <= cuts[|parts|]
    ensures Flatten(parts) == Loop(cuts[0], cuts[|parts|], body)
  {
    if parts != [] {
      var n := |parts| - 1;
      FlattenCuts(cuts[..n + 1], parts[..n], body);
      LoopConcat(cuts[0], cuts[n], cuts[n + 1], body);
    }
  }

  lemma BlockCuts(b: Layout, k: nat)
    requires Proper(b) && k < b.numBlocks <= SIZE_MAX
    ensures Cuts(b)[k] == Start(b, k) <= End(b, k) == Cuts(b)[k + 1]
  {
    StartsMonotone(b, k, k + 1);
    EndMeetsStart(b, k);
  }

  lemma FlattenBlocks<R>(b: Layout, parts: seq<seq<R>>, body: int -> R)
    requires Proper(b) && |parts| == b.numBlocks <= SIZE_MAX
    requires forall k :: 0 <= k < |parts| ==> parts[k] == Loop(Start(b, k), End(b, k), body)
    ensures Flatten(parts) == Loop(b.firstIndex, b.indexAfterLast, body)
  {
    var cuts := Cuts(b);
    forall k | 0 <= k < |parts|
      ensures cuts[k] <= cuts[k + 1] && parts[k] == Loop(cuts[k], cuts[k + 1], body)
    {
      BlockCuts(b, k);
    }
    FlattenCuts(cuts, parts, body);
    CutEnds(b);
  }

  /** Where the blocks start, and where the last one ends. */
  function Cuts(b: Layout): seq<int> {
    seq(b.numBlocks + 1, k requires 0 <= k <= b.numBlocks => Start(b, k))
  }

  lemma CutEnds(b: Layout)
    requires Proper(b) && b.numBlocks <= SIZE_MAX
    ensures Cuts(b)[0] == b.firstIndex && Cuts(b)[b.numBlocks] == b.indexAfterLast
  {
    StartExact(b, 0);
    StartExact(b, b.numBlocks);
    AmountBound(b, b.numBlocks);
  }

  /** The values of the futures of a call whose block tasks are all done, in block order, concatenate to
      the sequential loop over the whole range. */
  lemma ValuesAreSequential<R>(s: State, futures: seq<TaskId>, values: seq<seq<R>>,
                               t: IndexType, first: int, afterLast: int, num: nat, body: int -> R)
    requires afterLast > first && 0 < num <= SIZE_MAX && SplitDefined(t, first, afterLast)
    requires Submitted(s, futures, Split(t, first, afterLast, num))
    requires AllDone(s, futures) && |values| == |futures|
    requires var promises := Promises(s.submitted, s.done, (start, end) => Loop(start, end, body));
             forall k :: 0 <= k < |futures| && futures[k] in promises ==> values[k] == promises[futures[k]]
    ensures forall k :: 0 <= k < |futures| ==>
              futures[k] in Promises(s.submitted, s.done, (start, end) => Loop(start, end, body))
    ensures Flatten(values) == Loop(first, afterLast, body)
  {
    var f := (start, end) => Loop(start, end, body);
    var b := Split(t, first, afterLast, num);
    SplitProper(t, first, afterLast, num);
    forall k | 0 <= k < |futures|
      ensures futures[k] in Promises(s.submitted, s.done, f) && values[k] == Loop(Start(b, k), End(b, k), body)
    {
      PromiseKept(s.submitted, s.done, f, futures[k]);
    }
    FlattenBlocks(b, values, body);
  }

  ghost predicate AllDone(s: State, futures: seq<TaskId>) {
    forall k :: 0 <= k < |futures| ==> futures[k] in s.done
  }

  /** Parallel equals sequential. However the pool interleaved them, on however many workers: once the
      futures of a call are ready, `get` returns the blocks' results in block order, and blocks that
      collect `body` over their indices concatenate to the sequential loop over the whole range. */
  method ParallelEqualsSequential<R>(ghost s: State, futures: seq<TaskId>, promises: map<TaskId, seq<R>>,
                                     t: IndexType, first: int, afterLast: int, num: nat, body: int -> R)
    returns (results: seq<seq<R>>)
    requires afterLast > first && 0 < num <= SIZE_MAX && SplitDefined(t, first, afterLast)
    requires Submitted(s, futures, Split(t, first, afterLast, num))
    requires promises == Promises(s.submitted, s.done, (start, end) => Loop(start, end, body))
    requires AllDone(s, futures)
    ensures |results| == (if afterLast - first < num then afterLast - first else num)
    ensures Flatten(results) == Loop(first, afterLast, body)
  {
    SplitProper(t, first, afterLast, num);
    forall k | 0 <= k < |futures|
      ensures futures[k] in promises
    {
      PromiseKept(s.submitted, s.done, (start, end) => Loop(start, end, body), futures[k]);
    }
    results := Get(futures, promises);
    ValuesAreSequential(s, futures, results, t, first, afterLast, num, body);
  }

  // --- Effects -----------------------------------------------------------------------------

  /** The calls of the loop body made for `mine`, in the order in which the tasks finished. */
  ghost function Calls(submitted: seq<Task>, done: seq<TaskId>, mine: seq<TaskId>): seq<int> {
    if done == [] then []
    else
      var id := done[|done| - 1];
      Calls(submitted, done[..|done| - 1], mine)
      + if id in mine && id < |submitted| && submitted[id].Block? then
          Loop(submitted[id].start, submitted[id].end, i => i)
        else
          []
  }

  lemma {:induction false} LoopOnce(start: int, end: int, i: int)
    ensures multiset(Loop(start, end, j => j))[i] == if start <= i < end then 1 else 0
    decreases end - start
  {
    if start < end {
      LoopOnce(start, end - 1, i);
    }
  }

  /** If `owner` is the only task of the call whose block holds `i`, then `i` is called as often as
      `owner` is done. */
  lemma {:induction false} CallsCount(submitted: seq<Task>, done: seq<TaskId>, mine: seq<TaskId>, i: int, owner: TaskId)
    requires forall id :: id in mine ==> id < |submitted| && submitted[id].Block?
    requires forall id :: id in mine ==> (submitted[id].start <= i < submitted[id].end <==> id == owner)
    requires owner in mine
    ensures multiset(Calls(submitted, done, mine))[i] == multiset(done)[owner]
  {
    if done != [] {
      var n := |done| - 1;
      CallsCount(submitted, done[..n], mine, i, owner);
      assert done == done[..n] + [done[n]];
      CallsAdd(submitted, done, mine, i);
    }
  }

  /** How often finishing a task calls the body on `i`. */
  function Adds(submitted: seq<Task>, id: TaskId, mine: seq<TaskId>, i: int): nat {
    if id in mine && id < |submitted| && submitted[id].Block? && submitted[id].start <= i < submitted[id].end then
      1
    else
      0
  }

  /** What the last finished task adds to the calls on `i`. */
  lemma CallsAdd(submitted: seq<Task>, done: seq<TaskId>, mine: seq<TaskId>, i: int)
    requires done != []
    ensures multiset(Calls(submitted, done, mine))[i]
         == multiset(Calls(submitted, done[..|done| - 1], mine))[i] + Adds(submitted, done[|done| - 1], mine, i)
  {
    var id := done[|done| - 1];
    if id in mine && id < |submitted| && submitted[id].Block? {
      LoopOnce(submitted[id].start, submitted[id].end, i);
    }
  }

  lemma {:induction false} NoCalls(submitted: seq<Task>, done: seq<TaskId>, mine: seq<TaskId>, i: int)
    requires forall id :: id in mine && id < |submitted| && submitted[id].Block? ==>
              !(submitted[id].start <= i < submitted[id].end)
    ensures multiset(Calls(submitted, done, mine))[i] == 0
  {
    if done != [] {
      var n := |done| - 1;
      NoCalls(submitted, done[..n], mine, i);
      if done[n] in mine && done[n] < |submitted| && submitted[done[n]].Block? {
        LoopOnce(submitted[done[n]].start, submitted[done[n]].end, i);
      }
    }
  }

  /** The place between two cuts that holds an index. */
  lemma {:induction false} FindCut(cuts: seq<int>, i: int, n: nat) returns (k: nat)
    requires n < |cuts| && cuts[0] <= i < cuts[n]
    ensures k < n && cuts[k] <= i < cuts[k + 1]
    decreases n
  {
    if cuts[n - 1] <= i {
      k := n - 1;
    } else {
      k := FindCut(cuts, i, n - 1);
    }
  }

  /** The block that holds an index. */
  lemma FindBlock(b: Layout, i: int) returns (k: nat)
    requires Proper(b) && b.numBlocks <= SIZE_MAX && b.firstIndex <= i < b.indexAfterLast
    ensures k < b.numBlocks && Start(b, k) <= i < End(b, k)
  {
    CutEnds(b);
    k := FindCut(Cuts(b), i, b.numBlocks);
    BlockCuts(b, k);
  }

  lemma OnlyBlock(b: Layout, i: int, k: nat, j: nat)
    requires Proper(b) && b.numBlocks <= SIZE_MAX && k < b.numBlocks && j < b.numBlocks
    requires Start(b, k) <= i < End(b, k)
    ensures Start(b, j) <= i < End(b, j) <==> j == k
  {
    if j < k {
      BlocksApart(b, j, k);
    } else if k < j {
      BlocksApart(b, k, j);
    }
  }

  lemma OnlyOwner(s: State, futures: seq<TaskId>, b: Layout, i: int, k: nat)
    requires Submitted(s, futures, b) && Proper(b) && b.numBlocks <= SIZE_MAX
    requires k < |futures| && Start(b, k) <= i < End(b, k)
    ensures forall id :: id in futures ==> (s.submitted[id].start <= i < s.submitted[id].end <==> id == futures[k])
  {
    forall id | id in futures
      ensures s.submitted[id].start <= i < s.submitted[id].end <==> id == futures[k]
    {
      var j :| 0 <= j < |futures| && futures[j] == id;
      OnlyBlock(b, i, k, j);
    }
  }

  /** `submit_loop` runs its body on every index of the range exactly once and on nothing else: in every
      reachable pool in which the call's futures are ready, whatever else the pool did meanwhile. */
  lemma EveryIndexOnce(s: State, futures: seq<TaskId>, t: IndexType, first: int, afterLast: int, num: nat, i: int)
    requires afterLast > first && 0 < num <= SIZE_MAX && SplitDefined(t, first, afterLast)
    requires Reachable(s) && Submitted(s, futures, Split(t, first, afterLast, num))
    requires AllDone(s, futures)
    ensures multiset(Calls(s.submitted, s.done, futures))[i] == if first <= i < afterLast then 1 else 0
  {
    var b := Split(t, first, afterLast, num);
    SplitProper(t, first, afterLast, num);
    if first <= i < afterLast {
      IndexInside(s, futures, b, i);
    } else {
      IndexOutside(s, futures, b, i);
    }
  }

  lemma IndexInside(s: State, futures: seq<TaskId>, b: Layout, i: int)
    requires Proper(b) && b.numBlocks <= SIZE_MAX && Reachable(s) && Submitted(s, futures, b)
    requires AllDone(s, futures)
    requires b.firstIndex <= i < b.indexAfterLast
    ensures multiset(Calls(s.submitted, s.done, futures))[i] == 1
  {
    var k := FindBlock(b, i);
    OnlyOwner(s, futures, b, i, k);
    CallsCount(s.submitted, s.done, futures, i, futures[k]);
    ExactlyOnce(s, futures[k]);
  }

  lemma IndexOutside(s: State, futures: seq<TaskId>, b: Layout, i: int)
    requires Proper(b) && b.numBlocks <= SIZE_MAX && Submitted(s, futures, b)
    requires !(b.firstIndex <= i < b.indexAfterLast)
    ensures multiset(Calls(s.submitted, s.done, futures))[i] == 0
  {
    forall id | id in futures
      ensures !(s.submitted[id].start <= i < s.submitted[id].end)
    {
      var j :| 0 <= j < |futures| && futures[j] == id;
      BlockExtent(b, j);
    }
    NoCalls(s.submitted, s.done, futures, i);
  }

  /** The futures do become ready: a drained pool that purged nothing has done every task. */
  lemma FuturesReady(s: State, futures: seq<TaskId>, b: Layout)
    requires Reachable(s) && Drained(s) && s.purged == [] && Submitted(s, futures, b)
    ensures AllDone(s, futures)
  {
    ReachableInv(s);
    AllAccounted(s);
  }

  /** The whole story, from the pool's construction: in any run, on any number of workers, with other
      callers and resets in between, in which a caller submits the blocks of a range one after the other,
      and which ends drained with nothing purged, every future of the call has its value, the values in
      order are the sequential loop, and the body was called once on each index and on nothing else. */
  lemma RunIsSequential<R>(numThreads: nat, hardware: nat, steps: seq<Step>, at: seq<nat>,
                           t: IndexType, first: int, afterLast: int, num: nat, body: int -> R)
    returns (futures: seq<TaskId>, values: seq<seq<R>>)
    requires numThreads <= SIZE_MAX && hardware <= SIZE_MAX && ValidRun(Initial(numThreads, hardware), steps)
    requires afterLast > first && 0 < num <= SIZE_MAX && SplitDefined(t, first, afterLast)
    requires SubmitsBlocks(steps, at, Split(t, first, afterLast, num))
    requires Drained(Final(Initial(numThreads, hardware), steps))
    requires Final(Initial(numThreads, hardware), steps).purged == []
    ensures var s := Final(Initial(numThreads, hardware), steps);
            var promises := Promises(s.submitted, s.done, (start, end) => Loop(start, end, body));
            && |values| == |futures| == |at|
            && (forall k :: 0 <= k < |at| ==> futures[k] == FutureOf(Initial(numThreads, hardware), steps, at[k]))
            && (forall k :: 0 <= k < |futures| ==> futures[k] in promises && values[k] == promises[futures[k]])
            && Flatten(values) == Loop(first, afterLast, body)
            && forall i :: multiset(Calls(s.submitted, s.done, futures))[i] == if first <= i < afterLast then 1 else 0
  {
    var s := Final(Initial(numThreads, hardware), steps);
    var b := Split(t, first, afterLast, num);
    assert Reachable(s);
    futures := InterleavedCall(Initial(numThreads, hardware), steps, at, b);
    FuturesReady(s, futures, b);
    values := ValuesOf(s, futures, (start, end) => Loop(start, end, body));
    ValuesAreSequential(s, futures, values, t, first, afterLast, num, body);
    forall i
      ensures multiset(Calls(s.submitted, s.done, futures))[i] == if first <= i < afterLast then 1 else 0
    {
      EveryIndexOnce(s, futures, t, first, afterLast, num, i);
    }
  }

  lemma ValuesOf<R>(s: State, futures: seq<TaskId>, f: (int, int) -> R) returns (values: seq<R>)
    requires AllDone(s, futures)
    requires forall k :: 0 <= k < |futures| ==> futures[k] < |s.submitted| && s.submitted[futures[k]].Block?
    ensures |values| == |futures|
    ensures forall k :: 0 <= k < |futures| ==> futures[k] in Promises(s.submitted, s.done, f)
    ensures forall k :: 0 <= k < |futures| ==> values[k] == Promises(s.submitted, s.done, f)[futures[k]]
  {
    forall k | 0 <= k < |futures|
      ensures futures[k] in Promises(s.submitted, s.done, f)
    {
      PromiseKept(s.submitted, s.done, f, futures[k]);
    }
    values := seq(|futures|, k requires 0 <= k < |futures| => Promises(s.submitted, s.done, f)[futures[k]]);
  }
}
