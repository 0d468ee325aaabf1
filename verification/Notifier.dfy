/**
 The batching notifier of the query engine.

 Outside a batch a callback is handed to the scheduler at once; inside, it waits in the queue, and
 the end of the outermost batch hands over the whole queue as one task.  The scheduler is first in,
 first out, and runs a task only when no batch is open.  A task runs its callbacks one by one, and
 each may schedule and batch itself; one that throws ends its task.
 */
module Notifier {
  /** A callback that was taken from a task: it was called, or an earlier one of its task threw. */
  datatype Fate = Called(callback: int) | Dropped(callback: int)

  datatype State = State(
    queue: seq<int>, transactions: int, tasks: seq<seq<int>>, running: seq<int>, past: seq<Fate>, scheduled: seq<int>)

  datatype Event =
    | Schedule(callback: int)
    | Begin
    | End
    | Take                  // the scheduler starts its next task
    | Call(throws: bool)    // the running task calls its next callback

  const NEW := State([], 0, [], [], [], [])

  function Drop(callbacks: seq<int>): seq<Fate> {
    seq(|callbacks|, i requires 0 <= i < |callbacks| => Dropped(callbacks[i]))
  }

  function Flush(s: State): State {
    if s.queue == [] then s else s.(queue := [], tasks := s.tasks + [s.queue])
  }

  function Step(s: State, e: Event): State {
    match e
    case Schedule(callback) =>
      var noted := s.(scheduled := s.scheduled + [callback]);
      if s.transactions > 0 then noted.(queue := s.queue + [callback]) else noted.(tasks := s.tasks + [[callback]])
    case Begin => s.(transactions := s.transactions + 1)
    case End =>
      if s.transactions <= 0 then s
      else
        var closed := s.(transactions := s.transactions - 1);
        if closed.transactions == 0 then Flush(closed) else closed
    case Take =>
      if s.transactions > 0 || s.running != [] || s.tasks == [] then s
      else s.(running := s.tasks[0], tasks := s.tasks[1..])
    case Call(throws) =>
      if s.transactions > 0 || s.running == [] then s
      else if throws then s.(running := [], past := s.past + [Called(s.running[0])] + Drop(s.running[1..]))
      else s.(running := s.running[1..], past := s.past + [Called(s.running[0])])
  }

  function Exec(s: State, es: seq<Event>): State
    decreases |es|
  {
    if es == [] then s else Exec(Step(s, es[0]), es[1..])
  }

  /** The scheduler starts its oldest task exactly when no batch is open and no task is running. */
  lemma TakeStarts(s: State)
    ensures Step(s, Take) ==
            if s.transactions <= 0 && s.running == [] && s.tasks != []
            then State(s.queue, s.transactions, s.tasks[1..], s.tasks[0], s.past, s.scheduled) else s
  {
  }

  // --- conservation -------------------------------------------------------------------------

  function Flatten(tasks: seq<seq<int>>): seq<int>
    decreases |tasks|
  {
    if tasks == [] then [] else tasks[0] + Flatten(tasks[1..])
  }

  function Callbacks(past: seq<Fate>): seq<int> {
    seq(|past|, i requires 0 <= i < |past| => past[i].callback)
  }

  /** Every callback scheduled so far, in order: those dealt with, those of the running task, of the tasks to come, and of the queue. */
  predicate Conserved(s: State) {
    s.scheduled == Callbacks(s.past) + s.running + Flatten(s.tasks) + s.queue
  }

  predicate Inv(s: State) {
    && s.transactions >= 0
    && (s.transactions == 0 ==> s.queue == [])
    && Conserved(s)
  }

  lemma {:induction false} FlattenSnoc(tasks: seq<seq<int>>, task: seq<int>)
    ensures Flatten(tasks + [task]) == Flatten(tasks) + task
    decreases |tasks|
  {
    if tasks == [] {
      assert [task][1..] == [];
    } else {
      assert (tasks + [task])[1..] == tasks[1..] + [task];
      FlattenSnoc(tasks[1..], task);
    }
  }

  lemma CallbacksAppend(past: seq<Fate>, more: seq<Fate>)
    ensures Callbacks(past + more) == Callbacks(past) + Callbacks(more)
  {
  }

  lemma Regroup(a: seq<int>, b: seq<int>, rest: seq<int>, c: seq<int>, d: seq<int>)
    ensures a + (b + rest) + c + d == (a + b) + rest + c + d
    ensures a + (b + rest) + c + d == (a + b + rest) + [] + c + d
  {
  }

  lemma CallKeeps(s: State, throws: bool)
    requires Inv(s) && s.running != [] && s.transactions == 0
    ensures Inv(Step(s, Call(throws)))
  {
    var first, rest := s.running[0], s.running[1..];
    CallbacksAppend(s.past, [Called(first)]);
    CallbacksAppend(s.past + [Called(first)], Drop(rest));
    assert Callbacks(Drop(rest)) == rest && Callbacks([Called(first)]) == [first];
    assert s.running == [first] + rest;
    Regroup(Callbacks(s.past), [first], rest, Flatten(s.tasks), s.queue);
  }

  lemma StepKeeps(s: State, e: Event)
    requires Inv(s)
    ensures Inv(Step(s, e))
  {
    match e
    case Schedule(callback) => FlattenSnoc(s.tasks, [callback]);
    case Begin =>
    case End => FlattenSnoc(s.tasks, s.queue);
    case Take =>
    case Call(throws) => if s.running != [] && s.transactions == 0 { CallKeeps(s, throws); }
  }

  /** In every run the queue is empty outside batches, and callbacks leave exactly once, in the order they were scheduled. */
  lemma {:induction false} ExecKeeps(s: State, es: seq<Event>)
    requires Inv(s)
    ensures Inv(Exec(s, es))
    decreases |es|
  {
    if es != [] {
      StepKeeps(s, es[0]);
      ExecKeeps(Step(s, es[0]), es[1..]);
    }
  }

  // --- what a throwing callback costs ----------------------------------------------------------

  predicate AllCalled(past: seq<Fate>) {
    forall i :: 0 <= i < |past| ==> past[i].Called?
  }

  /** The callback that throws is not the last of its task. */
  predicate Costs(s: State, e: Event) {
    e == Call(true) && s.transactions <= 0 && |s.running| > 1
  }

  predicate NothingCosts(s: State, es: seq<Event>)
    decreases |es|
  {
    es == [] || (!Costs(s, es[0]) && NothingCosts(Step(s, es[0]), es[1..]))
  }

  lemma StepCosts(s: State, e: Event)
    ensures s.past <= Step(s, e).past
    ensures AllCalled(Step(s, e).past) <==> AllCalled(s.past) && !Costs(s, e)
  {
    var t := Step(s, e);
    if Costs(s, e) {
      assert t.past[|s.past| + 1] == Dropped(s.running[1]);
    }
    if !AllCalled(s.past) {
      var i :| 0 <= i < |s.past| && !s.past[i].Called?;
      assert t.past[i] == s.past[i];
    }
  }

  /** Every callback that left was called if and only if none threw before the last of its task. */
  lemma {:induction false} DeliveredIff(s: State, es: seq<Event>)
    requires AllCalled(s.past)
    ensures AllCalled(Exec(s, es).past) <==> NothingCosts(s, es)
    decreases |es|
  {
    if es != [] {
      StepCosts(s, es[0]);
      if Costs(s, es[0]) {
        PastStays(Step(s, es[0]), es[1..]);
      } else {
        DeliveredIff(Step(s, es[0]), es[1..]);
      }
    }
  }

  lemma {:induction false} PastStays(s: State, es: seq<Event>)
    requires !AllCalled(s.past)
    ensures !AllCalled(Exec(s, es).past)
    decreases |es|
  {
    if es != [] {
      StepCosts(s, es[0]);
      PastStays(Step(s, es[0]), es[1..]);
    }
  }

  /** Two callbacks of one batch, the first of which throws: the second is never called. */
  lemma ThrowDropsTheRest()
    ensures Exec(NEW, [Begin, Schedule(1), Schedule(2), End] + [Take, Call(true)]).past == [Called(1), Dropped(2)]
  {
    var batch, run := [Begin, Schedule(1), Schedule(2), End], [Take, Call(true)];
    assert batch == [Begin] + [Schedule(1), Schedule(2)] + [End];
    var inner := [Schedule(1), Schedule(2)];
    assert inner[1..] == [Schedule(2)] && [Schedule(2)][1..] == [];
    assert Scheduled(inner) == [1] + Scheduled([Schedule(2)]) && Scheduled([Schedule(2)]) == [2] + Scheduled([]);
    assert [1] + ([2] + []) == [1, 2];
    assert Nested([Schedule(2)], 0) && Nested(inner, 0);
    BatchReleasesOnce(NEW, inner);
    var released := Exec(NEW, batch);
    assert released.tasks == [] + [[1, 2]] && [[1, 2]][0] == [1, 2] && [1, 2][1..] == [2];
    ExecAppend(NEW, batch, run);
    assert run[1..] == [Call(true)] && run[1..][1..] == [];
    assert Exec(released, run) == Step(Step(released, Take), Call(true));
  }

  lemma NewKeeps()
    ensures Inv(NEW)
  {
  }

  // --- one outermost batch ------------------------------------------------------------------------

  /** What happens inside a batch: schedules and inner batches that are closed again, down to the given depth. */
  predicate Nested(es: seq<Event>, depth: int)
    decreases |es|
  {
    if es == [] then depth == 0
    else
      match es[0]
      case Schedule(_) => Nested(es[1..], depth)
      case Begin => Nested(es[1..], depth + 1)
      case End => depth > 0 && Nested(es[1..], depth - 1)
      case Take => false
      case Call(_) => false
  }

  function Scheduled(es: seq<Event>): seq<int>
    decreases |es|
  {
    if es == [] then []
    else (if es[0].Schedule? then [es[0].callback] else []) + Scheduled(es[1..])
  }

  lemma {:induction false} InsideNothingLeaves(s: State, es: seq<Event>, depth: int)
    requires depth >= 0 && s.transactions == depth + 1 && Nested(es, depth)
    ensures var t := Exec(s, es);
            && t.transactions == 1 && t.tasks == s.tasks && t.running == s.running && t.past == s.past
            && t.queue == s.queue + Scheduled(es)
    decreases |es|
  {
    if es != [] {
      var t := Step(s, es[0]);
      InsideNothingLeaves(t, es[1..], if es[0].Begin? then depth + 1 else if es[0].End? then depth - 1 else depth);
    }
  }

  lemma {:induction false} ExecAppend(s: State, es: seq<Event>, fs: seq<Event>)
    ensures Exec(s, es + fs) == Exec(Exec(s, es), fs)
    decreases |es|
  {
    if es == [] {
      assert es + fs == fs;
    } else {
      assert (es + fs)[1..] == es[1..] + fs;
      ExecAppend(Step(s, es[0]), es[1..], fs);
    }
  }

  /** Before the end of an outermost batch nothing is released, whatever is well nested inside it. */
  lemma NothingBeforeTheEnd(s: State, es: seq<Event>, k: int)
    requires s.transactions == 0 && Nested(es, 0) && 0 <= k <= |es|
    ensures Exec(s, [Begin] + es[..k]).tasks == s.tasks
  {
    assert ([Begin] + es[..k])[1..] == es[..k];
    PrefixStays(Step(s, Begin), es, 0, k);
  }

  /** At its end everything scheduled inside is released as one task, if there was anything. */
  lemma BatchReleasesOnce(s: State, es: seq<Event>)
    requires s.transactions == 0 && s.queue == [] && Nested(es, 0)
    ensures Exec(s, [Begin] + es + [End]) ==
            s.(scheduled := s.scheduled + Scheduled(es),
               tasks := s.tasks + if Scheduled(es) == [] then [] else [Scheduled(es)])
  {
    var inside := Step(s, Begin);
    assert ([Begin] + es)[1..] == es;
    ExecAppend(s, [Begin] + es, [End]);
    InsideNothingLeaves(inside, es, 0);
    ScheduledIsNoted(inside, es);
    EndReleases(s, Exec(inside, es), Scheduled(es));
  }

  lemma EndReleases(s: State, t: State, callbacks: seq<int>)
    requires s.transactions == 0 && s.queue == []
    requires t == s.(transactions := 1, queue := s.queue + callbacks, scheduled := t.scheduled)
    ensures Exec(t, [End]) ==
            s.(scheduled := t.scheduled, tasks := s.tasks + if callbacks == [] then [] else [callbacks])
  {
    assert Exec(t, [End]) == Step(t, End);
    assert s.queue + callbacks == callbacks;
  }

  lemma {:induction false} PrefixStays(s: State, es: seq<Event>, depth: int, k: int)
    requires depth >= 0 && s.transactions == depth + 1 && Nested(es, depth) && 0 <= k <= |es|
    ensures Exec(s, es[..k]).tasks == s.tasks
    decreases k
  {
    if k > 0 {
      assert es[..k][0] == es[0] && es[..k][1..] == es[1..][..k - 1];
      PrefixStays(Step(s, es[0]), es[1..], if es[0].Begin? then depth + 1 else if es[0].End? then depth - 1 else depth, k - 1);
    }
  }

  lemma {:induction false} ScheduledIsNoted(s: State, es: seq<Event>)
    ensures Exec(s, es).scheduled == s.scheduled + Scheduled(es)
    decreases |es|
  {
    if es != [] {
      ScheduledIsNoted(Step(s, es[0]), es[1..]);
    }
  }

  // --- everything is delivered in the end -----------------------------------------------------------

  /** The scheduler's work on what is there, when nothing new is scheduled and nothing throws. */
  function Work(running: seq<int>, tasks: seq<seq<int>>): seq<Event>
    decreases |tasks|, |running|
  {
    if running != [] then [Call(false)] + Work(running[1..], tasks)
    else if tasks != [] then [Take] + Work(tasks[0], tasks[1..])
    else []
  }

  lemma {:induction false} WorkDelivers(s: State)
    requires Inv(s) && s.transactions == 0
    ensures var t := Exec(s, Work(s.running, s.tasks));
            && t.running == [] && t.tasks == [] && t.scheduled == s.scheduled
            && Callbacks(t.past) == s.scheduled && (AllCalled(s.past) ==> AllCalled(t.past))
    decreases |s.tasks|, |s.running|
  {
    var es := Work(s.running, s.tasks);
    if es != [] {
      StepKeeps(s, es[0]);
      StepCosts(s, es[0]);
      assert es[1..] == Work(Step(s, es[0]).running, Step(s, es[0]).tasks);
      WorkDelivers(Step(s, es[0]));
    }
  }

  // --- the notifier in place ---------------------------------------------------------------------------

  class NotifyManager {
    var queue: seq<int>
    var transactions: int
    var tasks: seq<seq<int>>
    var running: seq<int>
    var past: seq<Fate>
    ghost var scheduled: seq<int>

    ghost function View(): State
      reads this
    {
      State(queue, transactions, tasks, running, past, scheduled)
    }

    constructor ()
      ensures View() == NEW
    {
      queue, transactions, tasks, running, past, scheduled := [], 0, [], [], [], [];
    }

    method ScheduleCallback(callback: int)
      modifies this`queue, this`tasks, this`scheduled
      ensures View() == Step(old(View()), Schedule(callback))
    {
      if transactions > 0 {
        queue := queue + [callback];
      } else {
        tasks := tasks + [[callback]];
      }
      scheduled := scheduled + [callback];
    }

    method FlushQueue()
      modifies this`queue, this`tasks
      ensures View() == Flush(old(View()))
    {
      var originalQueue := queue;
      queue := [];
      if |originalQueue| > 0 {
        tasks := tasks + [originalQueue];
      }
    }

    method BeginBatch()
      modifies this`transactions
      ensures View() == Step(old(View()), Begin)
    {
      transactions := transactions + 1;
    }

    /** The end of a batch, whether or not its callback threw. */
    method EndBatch()
      requires transactions > 0
      modifies this`transactions, this`queue, this`tasks
      ensures View() == Step(old(View()), End)
    {
      transactions := transactions - 1;
      if transactions == 0 {
        FlushQueue();
      }
    }

    method StartTask()
      requires transactions == 0 && running == [] && tasks != []
      modifies this`running, this`tasks
      ensures View() == Step(old(View()), Take)
    {
      running, tasks := tasks[0], tasks[1..];
    }

    method CallNext(throws: bool)
      requires transactions == 0 && running != []
      modifies this`running, this`past
      ensures View() == Step(old(View()), Call(throws))
    {
      past := past + [Called(running[0])];
      if throws {
        past := past + Drop(running[1..]);
        running := [];
      } else {
        running := running[1..];
      }
    }
  }
}
