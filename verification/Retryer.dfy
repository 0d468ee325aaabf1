/**
 The retry machine of the query engine: one promise, a function tried again and again, pauses while
 the window is out of focus or offline, and cancellation at any moment.

 Promise reactions and timers are events.  Whether the machine may start or continue depends on the
 window, the network and the owner's `canRun`; each event that asks brings the answer.
 */
module Retryer {
  import opened Options

  datatype Error = Thrown(code: int) | Cancelled(revert: bool, silent: bool)

  /** A value of None is JavaScript's undefined. */
  datatype Status = Pending | Resolved(value: Option<int>) | Rejected(error: Error)

  datatype Policy = Always | UpTo(r: int) | Ask(decide: (int, Error) -> bool)

  /** `initialPromise`: the first attempt awaits a given promise instead of calling the function. */
  datatype Config = Config(retry: Policy, initialPromise: bool)

  /** Where the one chain of reactions is; `retrying` tells a pause after a failure from one before the start. */
  datatype Place =
    | Created
    | Running
    | Sleeping
    | Parked(retrying: bool)      // paused, waiting for continue
    | Resuming(retrying: bool)    // the pause is over, its reaction is still to run
    | Ready(retrying: bool)       // about to run again, or to give up
    | Ended

  /** What the owner sees. */
  datatype Output = Called | Failed(count: int) | Paused | Continued | CancelSeen | Settled(status: Status)

  datatype Machine = Machine(
    status: Status, failureCount: int, retryCancelled: bool, at: Place, lastError: Error, runs: int, log: seq<Output>)

  datatype Event =
    | Start(may: bool)
    | Succeeds(value: Option<int>, may: bool)
    | Fails(error: Error, may: bool)
    | Wake(may: bool)
    | Resume
    | Decide(may: bool)
    | Continue(may: bool)
    | Cancel(error: Error, may: bool)
    | CancelRetry
    | ContinueRetry

  const NEW := Machine(Pending, 0, false, Created, Thrown(0), 0, [])

  function Say(m: Machine, o: Output): Machine {
    m.(log := m.log + [o])
  }

  /** `continueFn`, if a pause has set it: it ends the pause when the promise is settled or the machine may continue. */
  function CallContinue(m: Machine, may: bool): Machine {
    if m.at.Parked? && (!m.status.Pending? || may) then m.(at := Resuming(m.at.retrying)) else m
  }

  function Settle(m: Machine, status: Status, may: bool): Machine {
    if !m.status.Pending? then m else Say(CallContinue(m, may).(status := status), Settled(status))
  }

  function Pause(m: Machine, retrying: bool): Machine {
    Say(m.(at := Parked(retrying)), Paused)
  }

  function Run(c: Config, m: Machine): Machine {
    if !m.status.Pending? then m.(at := Ended)
    else
      var running := m.(at := Running, runs := m.runs + 1);
      if c.initialPromise && m.failureCount == 0 then running else Say(running, Called)
  }

  predicate ShouldRetry(c: Config, m: Machine, error: Error) {
    match c.retry
    case Always => true
    case UpTo(r) => m.failureCount < r
    case Ask(decide) => decide(m.failureCount, error)
  }

  function OnFailure(c: Config, m: Machine, error: Error, may: bool): Machine {
    if !m.status.Pending? then m.(at := Ended)
    else if m.retryCancelled || !ShouldRetry(c, m, error) then Settle(m.(at := Ended), Rejected(error), may)
    else Say(m.(failureCount := m.failureCount + 1, at := Sleeping, lastError := error), Failed(m.failureCount + 1))
  }

  function Step(c: Config, m: Machine, e: Event): Machine {
    match e
    case Start(may) => if !m.at.Created? then m else if may then Run(c, m) else Pause(m, false)
    case Succeeds(value, may) => if !m.at.Running? then m else Settle(m.(at := Ended), Resolved(value), may)
    case Fails(error, may) => if !m.at.Running? then m else OnFailure(c, m, error, may)
    case Wake(may) => if !m.at.Sleeping? then m else if may then m.(at := Ready(true)) else Pause(m, true)
    case Resume =>
      if !m.at.Resuming? then m
      else
        var ready := m.(at := Ready(m.at.retrying));
        if m.status.Pending? then Say(ready, Continued) else ready
    case Decide(may) =>
      if !m.at.Ready? then m
      else if m.at.retrying && m.retryCancelled then Settle(m.(at := Ended), Rejected(m.lastError), may)
      else Run(c, m)
    case Continue(may) => CallContinue(m, may)
    case Cancel(error, may) => if !m.status.Pending? then m else Say(Settle(m, Rejected(error), may), CancelSeen)
    case CancelRetry => m.(retryCancelled := true)
    case ContinueRetry => m.(retryCancelled := false)
  }

  function Exec(c: Config, m: Machine, es: seq<Event>): Machine
    decreases |es|
  {
    if es == [] then m else Exec(c, Step(c, m, es[0]), es[1..])
  }

  // --- what every step keeps -------------------------------------------------------------

  /** What a log says so far: not settled, settled and how many of the late outputs followed, or broken. */
  datatype Seen = Open | Closed(status: Status, late: int) | Broken

  /** Once settled, only the cancel callback may follow, and after it one stray pause. */
  function Next(seen: Seen, o: Output): Seen {
    match seen
    case Open => if o.Settled? then Closed(o.status, 0) else if o.CancelSeen? then Broken else Open
    case Closed(status, late) =>
      if (late == 0 && o.CancelSeen?) || (late == 1 && o.Paused?) then Closed(status, late + 1) else Broken
    case Broken => Broken
  }

  function Scan(log: seq<Output>): Seen
    decreases |log|
  {
    if log == [] then Open else Next(Scan(log[..|log| - 1]), log[|log| - 1])
  }

  function CountCalls(log: seq<Output>): nat
    decreases |log|
  {
    if log == [] then 0 else CountCalls(log[..|log| - 1]) + if log[|log| - 1].Called? then 1 else 0
  }

  /** What the log must say of a machine: whatever could still pause was settled by a cancel. */
  predicate SeenFits(seen: Seen, status: Status, at: Place) {
    if status.Pending? then seen == Open
    else
      && seen.Closed? && seen.status == status
      && (at.Created? || at.Running? || at.Sleeping? ==> seen.late == 1)
  }

  predicate LogInv(m: Machine) {
    SeenFits(Scan(m.log), m.status, m.at)
  }

  function Pauses(at: Place): bool {
    at.Parked? || at.Resuming? || at.Ready?
  }

  /** Attempts and failures, by place. */
  predicate CountInv(c: Config, m: Machine) {
    && 0 <= m.failureCount <= m.runs <= m.failureCount + 1
    && (m.at.Created? || (Pauses(m.at) && !m.at.retrying) ==> m.runs == 0)
    && (m.at.Running? ==> m.runs == m.failureCount + 1)
    && (m.at.Sleeping? || (Pauses(m.at) && m.at.retrying) ==> m.runs == m.failureCount > 0)
    && (c.retry.UpTo? ==> m.failureCount <= if c.retry.r > 0 then c.retry.r else 0)
    && CountCalls(m.log) == m.runs - (if c.initialPromise && m.runs > 0 then 1 else 0)
  }

  predicate Inv(c: Config, m: Machine) {
    LogInv(m) && CountInv(c, m)
  }

  lemma SaySplits(log: seq<Output>, o: Output)
    ensures Scan(log + [o]) == Next(Scan(log), o)
    ensures CountCalls(log + [o]) == CountCalls(log) + if o.Called? then 1 else 0
  {
    assert (log + [o])[..|log|] == log;
  }

  /** What one output does to the two parts of the invariant, whatever the machine. */
  lemma LogGrows(c: Config, m: Machine, t: Machine, o: Output)
    requires LogInv(m) && m.status.Pending? && t.status.Pending? && t.log == m.log + [o]
    requires !o.Settled? && !o.CancelSeen?
    ensures LogInv(t) && CountCalls(t.log) == CountCalls(m.log) + if o.Called? then 1 else 0
  {
    SaySplits(m.log, o);
  }

  lemma RunKeeps(c: Config, m: Machine)
    requires Inv(c, m) && m.runs == m.failureCount
    ensures Inv(c, Run(c, m))
  {
    if m.status.Pending? && !(c.initialPromise && m.failureCount == 0) {
      LogGrows(c, m, Run(c, m), Called);
    }
  }

  lemma PauseKeeps(c: Config, m: Machine, retrying: bool)
    requires Inv(c, m) && (m.status.Pending? || m.at.Created? || m.at.Sleeping?)
    requires m.runs == m.failureCount && (retrying <==> m.runs > 0)
    ensures Inv(c, Pause(m, retrying))
  {
    SaySplits(m.log, Paused);
  }

  lemma SettleKeeps(c: Config, m: Machine, status: Status, may: bool)
    requires Inv(c, m) && !status.Pending? && m.at.Ended?
    ensures Inv(c, Settle(m, status, may))
  {
    SaySplits(m.log, Settled(status));
  }

  lemma FailureKeeps(c: Config, m: Machine, error: Error, may: bool)
    requires Inv(c, m) && m.at.Running?
    ensures Inv(c, OnFailure(c, m, error, may))
  {
    if m.status.Pending? {
      SettleKeeps(c, m.(at := Ended), Rejected(error), may);
      SaySplits(m.log, Failed(m.failureCount + 1));
    }
  }

  lemma CancelKeeps(c: Config, m: Machine, error: Error, may: bool)
    requires Inv(c, m) && m.status.Pending?
    ensures Inv(c, Say(Settle(m, Rejected(error), may), CancelSeen))
  {
    SaySplits(m.log, Settled(Rejected(error)));
    SaySplits(m.log + [Settled(Rejected(error))], CancelSeen);
  }

  lemma StepKeeps(c: Config, m: Machine, e: Event)
    requires Inv(c, m)
    ensures Inv(c, Step(c, m, e))
  {
    match e {
      case Start(may) =>
        if m.at.Created? {
          RunKeeps(c, m);
          PauseKeeps(c, m, false);
        }
      case Succeeds(value, may) => if m.at.Running? { SettleKeeps(c, m.(at := Ended), Resolved(value), may); }
      case Fails(error, may) => if m.at.Running? { FailureKeeps(c, m, error, may); }
      case Wake(may) => if m.at.Sleeping? { PauseKeeps(c, m, true); }
      case Resume => SaySplits(m.log, Continued);
      case Decide(may) =>
        if m.at.Ready? {
          SettleKeeps(c, m.(at := Ended), Rejected(m.lastError), may);
          RunKeeps(c, m);
        }
      case Cancel(error, may) => if m.status.Pending? { CancelKeeps(c, m, error, may); }
      case _ =>
    }
  }

  lemma {:induction false} ExecKeeps(c: Config, m: Machine, es: seq<Event>)
    requires Inv(c, m)
    ensures Inv(c, Exec(c, m, es))
    decreases |es|
  {
    if es != [] {
      StepKeeps(c, m, es[0]);
      ExecKeeps(c, Step(c, m, es[0]), es[1..]);
    }
  }

  // --- the results ---------------------------------------------------------------------------

  /** A log that settled reads: anything but settling, the settling, and then at most a cancel callback and one pause. */
  lemma {:induction false} ScanMeans(log: seq<Output>) returns (k: int)
    requires !Scan(log).Broken?
    ensures 0 <= k <= |log|
    ensures forall i :: 0 <= i < k ==> !log[i].Settled? && !log[i].CancelSeen?
    ensures Scan(log).Open? <==> k == |log|
    ensures k < |log| ==>
              && log[k] == Settled(Scan(log).status)
              && log[k + 1..] == [CancelSeen, Paused][..Scan(log).late] && 0 <= Scan(log).late <= 2
    decreases |log|
  {
    if log == [] {
      k := 0;
    } else {
      var init, o := log[..|log| - 1], log[|log| - 1];
      assert log == init + [o];
      k := ScanMeans(init);
      if k == |init| && !o.Settled? {
        k := |log|;
      } else if k < |init| {
        assert log[k + 1..] == init[k + 1..] + [o];
        assert [CancelSeen, Paused][..0] == [] && [CancelSeen, Paused][..1] == [CancelSeen];
      }
    }
  }

  /**
   In every run the promise settles at most once, as the status says, and afterwards the function is
   never called, no failure and no continue is reported: all that may follow is the cancel callback
   and one pause.
   */
  lemma SettlesOnce(c: Config, es: seq<Event>) returns (k: int)
    ensures var m := Exec(c, NEW, es);
            && 0 <= k <= |m.log|
            && (m.status.Pending? <==> k == |m.log|)
            && (forall i :: 0 <= i < k ==> !m.log[i].Settled?)
            && (k < |m.log| ==>
                  && m.log[k] == Settled(m.status)
                  && (m.log[k + 1..] == [] || m.log[k + 1..] == [CancelSeen] || m.log[k + 1..] == [CancelSeen, Paused]))
  {
    ExecKeeps(c, NEW, es);
    var m := Exec(c, NEW, es);
    k := ScanMeans(m.log);
    if k < |m.log| {
      assert [CancelSeen, Paused][..0] == [] && [CancelSeen, Paused][..1] == [CancelSeen] && [CancelSeen, Paused][..2] == [CancelSeen, Paused];
    }
  }

  /** With a numeric retry r the function is called at most max(r, 0) + 1 times, one fewer when a promise was given. */
  lemma CallsAreBounded(c: Config, es: seq<Event>)
    requires c.retry.UpTo?
    ensures CountCalls(Exec(c, NEW, es).log) <= (if c.retry.r > 0 then c.retry.r else 0) + 1
    ensures c.initialPromise ==> CountCalls(Exec(c, NEW, es).log) <= if c.retry.r > 0 then c.retry.r else 0
  {
    ExecKeeps(c, NEW, es);
  }

  /** The measure of the retry loop: what is left of r. */
  lemma FailureMeasure(c: Config, m: Machine, error: Error, may: bool)
    requires c.retry.UpTo? && m.at.Running? && m.status.Pending?
    ensures var t := Step(c, m, Fails(error, may));
            && (t.status.Pending? <==> !m.retryCancelled && m.failureCount < c.retry.r)
            && (t.status.Pending? ==> 0 <= c.retry.r - t.failureCount < c.retry.r - m.failureCount)
            && (!t.status.Pending? ==> t.status == Rejected(error))
  {
  }

  /** The function fails with each error in turn, and nothing is in the way of trying again. */
  function AllFail(errors: seq<Error>): seq<Event>
    decreases |errors|
  {
    if |errors| <= 1 then if errors == [] then [] else [Fails(errors[0], true)]
    else [Fails(errors[0], true), Wake(true), Decide(true)] + AllFail(errors[1..])
  }

  /** The bound is met: a function that always fails is tried max(r, 0) + 1 times, and its last error rejects. */
  lemma {:induction false} RetriesAreExhausted(c: Config, m: Machine, errors: seq<Error>)
    requires c.retry.UpTo? && m.at.Running? && m.status.Pending? && !m.retryCancelled
    requires m.runs == m.failureCount + 1 && (m.failureCount == 0 || 0 < m.failureCount <= c.retry.r)
    requires |errors| == 1 + (if c.retry.r > m.failureCount then c.retry.r - m.failureCount else 0)
    ensures var t := Exec(c, m, AllFail(errors));
            && t.status == Rejected(errors[|errors| - 1])
            && t.runs == (if c.retry.r > 0 then c.retry.r else 0) + 1
    decreases |errors|
  {
    var first := Step(c, m, Fails(errors[0], true));
    if |errors| == 1 {
      assert AllFail(errors) == [Fails(errors[0], true)];
      assert Exec(c, m, AllFail(errors)) == Exec(c, first, []);
    } else {
      var es, rest := AllFail(errors), AllFail(errors[1..]);
      assert es[0] == Fails(errors[0], true) && es[1..][0] == Wake(true) && es[1..][1..][0] == Decide(true) && es[1..][1..][1..] == rest;
      var again := Step(c, Step(c, first, Wake(true)), Decide(true));
      assert again.at.Running? && again.status.Pending? && again.failureCount == m.failureCount + 1;
      assert Exec(c, m, es) == Exec(c, first, es[1..]) == Exec(c, Step(c, first, Wake(true)), es[1..][1..]) == Exec(c, again, rest);
      RetriesAreExhausted(c, again, errors[1..]);
    }
  }

  // --- what each event brings about -------------------------------------------------------------

  /** What the owner was told in between. */
  predicate Says(m: Machine, t: Machine, outputs: seq<Output>) {
    t.log == m.log + outputs
  }

  /** A failure is tried again while retries are not cancelled and the policy says so: always, fewer than r times, or as it is asked. */
  lemma FailsOutcome(c: Config, m: Machine, error: Error, may: bool)
    requires m.at.Running? && m.status.Pending?
    ensures var t := Step(c, m, Fails(error, may));
            var again := !m.retryCancelled &&
              match c.retry case Always => true case UpTo(r) => m.failureCount < r case Ask(decide) => decide(m.failureCount, error);
            && (again ==>
                  && t == m.(at := Sleeping, failureCount := m.failureCount + 1, lastError := error, log := t.log)
                  && Says(m, t, [Failed(m.failureCount + 1)]))
            && (!again ==> t == m.(at := Ended, status := Rejected(error), log := t.log) && Says(m, t, [Settled(Rejected(error))]))
  {
  }

  /** The value of a call that succeeds is the value of the promise. */
  lemma SucceedsOutcome(c: Config, m: Machine, value: Option<int>, may: bool)
    requires m.at.Running? && m.status.Pending?
    ensures var t := Step(c, m, Succeeds(value, may));
            t == m.(at := Ended, status := Resolved(value), log := t.log) && Says(m, t, [Settled(Resolved(value))])
  {
  }

  /** The first attempt is made at once, or waits; it calls the function unless a promise was given. */
  lemma StartOutcome(c: Config, m: Machine, may: bool)
    requires m.at.Created? && m.status.Pending?
    ensures var t := Step(c, m, Start(may));
            && (may ==> t == m.(at := Running, runs := m.runs + 1, log := t.log)
                        && Says(m, t, if c.initialPromise && m.failureCount == 0 then [] else [Called]))
            && (!may ==> t == m.(at := Parked(false), log := t.log) && Says(m, t, [Paused]))
  {
  }

  /** After the delay the machine goes on or pauses. */
  lemma WakeOutcome(c: Config, m: Machine, may: bool)
    requires m.at.Sleeping?
    ensures var t := Step(c, m, Wake(may));
            && t == m.(at := if may then Ready(true) else Parked(true), log := t.log)
            && Says(m, t, if may then [] else [Paused])
  {
  }

  /** A pause ends when the machine may go on, or has settled; whoever is still waiting for it is told. */
  lemma PauseEnds(c: Config, m: Machine, may: bool)
    ensures Step(c, m, Continue(may)) ==
            if m.at.Parked? && (may || !m.status.Pending?) then m.(at := Resuming(m.at.retrying)) else m
    ensures m.at.Resuming? ==>
              var t := Step(c, m, Resume);
              t == m.(at := Ready(m.at.retrying), log := t.log) && Says(m, t, if m.status.Pending? then [Continued] else [])
  {
  }

  /** Then the function is called again, or the last error rejects if retries were cancelled meanwhile. */
  lemma DecideOutcome(c: Config, m: Machine, may: bool)
    requires m.at.Ready?
    ensures var t := Step(c, m, Decide(may));
            && (!m.status.Pending? ==> t == m.(at := Ended))
            && (m.status.Pending? && m.at.retrying && m.retryCancelled ==>
                  t == m.(at := Ended, status := Rejected(m.lastError), log := t.log) && Says(m, t, [Settled(Rejected(m.lastError))]))
            && (m.status.Pending? && !(m.at.retrying && m.retryCancelled) ==>
                  && t == m.(at := Running, runs := m.runs + 1, log := t.log)
                  && Says(m, t, if c.initialPromise && m.failureCount == 0 then [] else [Called]))
  {
  }

  /** A cancel rejects with its own error and is reported, once; a pause it finds ends only if the machine may go on. */
  lemma CancelOutcome(c: Config, m: Machine, error: Error, may: bool)
    ensures var t := Step(c, m, Cancel(error, may));
            && (!m.status.Pending? ==> t == m)
            && (m.status.Pending? ==>
                  && t == m.(at := if m.at.Parked? && may then Resuming(m.at.retrying) else m.at,
                             status := Rejected(error), log := t.log)
                  && Says(m, t, [Settled(Rejected(error))] + [CancelSeen]))
  {
  }

  lemma RetryFlag(c: Config, m: Machine)
    ensures Step(c, m, CancelRetry) == m.(retryCancelled := true) && Step(c, m, ContinueRetry) == m.(retryCancelled := false)
  {
  }

  /** Only a failure that is tried again replaces the last error. */
  lemma {:induction false} LastErrorStays(c: Config, m: Machine, es: seq<Event>)
    requires forall i :: 0 <= i < |es| ==> !es[i].Fails?
    ensures Exec(c, m, es).lastError == m.lastError
    decreases |es|
  {
    if es != [] {
      LastErrorStays(c, Step(c, m, es[0]), es[1..]);
    }
  }

  /** So a machine whose retries are cancelled after a failure rejects with that failure's error, when it is its turn. */
  lemma GivesUpWithLastError(c: Config, m: Machine, error: Error, es: seq<Event>, may: bool)
    requires m.at.Running? && m.status.Pending? && !m.retryCancelled && ShouldRetry(c, m, error)
    requires forall i :: 0 <= i < |es| ==> !es[i].Fails?
    requires var r := Exec(c, Step(c, m, Fails(error, may)), es); r.at == Ready(true) && r.status.Pending? && r.retryCancelled
    ensures Step(c, Exec(c, Step(c, m, Fails(error, may)), es), Decide(may)).status == Rejected(error)
  {
    LastErrorStays(c, Step(c, m, Fails(error, may)), es);
  }

  /** A pause is reported by a settled machine exactly when it slept or had not started, and then may not go on. */
  lemma StrayPauseIff(c: Config, es: seq<Event>, e: Event)
    ensures var m := Exec(c, NEW, es);
            var t := Step(c, m, e);
            !m.status.Pending? ==>
              && t.status == m.status
              && (t.log == m.log || t.log == m.log + [Paused])
              && (t.log != m.log <==> (m.at.Sleeping? && e == Wake(false)) || (m.at.Created? && e == Start(false)))
  {
    ExecKeeps(c, NEW, es);
  }

  /** For instance: cancelled while it sleeps, out of focus when it wakes. */
  lemma StrayPause(c: Config)
    requires c.retry == UpTo(3) && !c.initialPromise
    ensures var es := [Start(true), Fails(Thrown(1), true), Cancel(Cancelled(true, false), true), Wake(false)];
            Exec(c, NEW, es).log == [Called, Failed(1), Settled(Rejected(Cancelled(true, false))), CancelSeen, Paused]
  {
    var es := [Start(true), Fails(Thrown(1), true), Cancel(Cancelled(true, false), true), Wake(false)];
    var m1 := Step(c, NEW, es[0]);
    var m2 := Step(c, m1, es[1]);
    var m3 := Step(c, m2, es[2]);
    assert es[1..] == [es[1], es[2], es[3]] && es[1..][1..] == [es[2], es[3]] && es[1..][1..][1..] == [es[3]];
    assert Exec(c, m3, [es[3]]) == Exec(c, Step(c, m3, es[3]), [es[3]][1..]);
    assert Exec(c, m2, [es[2], es[3]]) == Exec(c, m3, [es[3]]);
  }

  // --- the machine in place --------------------------------------------------------------------

  class RetryMachine {
    const config: Config
    var status: Status
    var failureCount: int
    var retryCancelled: bool
    var at: Place
    var lastError: Error
    var runs: int
    var log: seq<Output>

    ghost function View(): Machine
      reads this
    {
      Machine(status, failureCount, retryCancelled, at, lastError, runs, log)
    }

    constructor (config: Config)
      ensures this.config == config && View() == NEW
    {
      this.config := config;
      status, failureCount, retryCancelled, at, lastError, runs, log := Pending, 0, false, Created, Thrown(0), 0, [];
    }

    method ContinueFn(may: bool)
      modifies this`at
      ensures View() == CallContinue(old(View()), may)
    {
      match at
      case Parked(retrying) => if !status.Pending? || may { at := Resuming(retrying); }
      case _ =>
    }

    method SettleWith(outcome: Status, may: bool)
      requires !outcome.Pending?
      modifies this`at, this`status, this`log
      ensures View() == Settle(old(View()), outcome, may)
    {
      if status.Pending? {
        ContinueFn(may);
        status := outcome;
        log := log + [Settled(outcome)];
      }
    }

    method EnterPause(retrying: bool)
      modifies this`at, this`log
      ensures View() == Pause(old(View()), retrying)
    {
      at := Parked(retrying);
      log := log + [Paused];
    }

    method RunOnce()
      modifies this`at, this`runs, this`log
      ensures View() == Run(config, old(View()))
    {
      if !status.Pending? {
        at := Ended;
        return;
      }
      at := Running;
      runs := runs + 1;
      if !(config.initialPromise && failureCount == 0) {
        log := log + [Called];
      }
    }

    method Start(may: bool)
      requires at.Created?
      modifies this
      ensures View() == Step(config, old(View()), Event.Start(may))
    {
      if may { RunOnce(); } else { EnterPause(false); }
    }

    method OnSuccess(value: Option<int>, may: bool)
      requires at.Running?
      modifies this
      ensures View() == Step(config, old(View()), Succeeds(value, may))
    {
      at := Ended;
      SettleWith(Resolved(value), may);
    }

    method OnError(error: Error, may: bool)
      requires at.Running?
      modifies this
      ensures View() == Step(config, old(View()), Fails(error, may))
    {
      at := Ended;
      if !status.Pending? {
        return;
      }
      var shouldRetry :=
        match config.retry
        case Always => true
        case UpTo(r) => failureCount < r
        case Ask(decide) => decide(failureCount, error);
      if retryCancelled || !shouldRetry {
        SettleWith(Rejected(error), may);
        return;
      }
      failureCount := failureCount + 1;
      lastError := error;
      log := log + [Failed(failureCount)];
      at := Sleeping;
    }

    method OnWake(may: bool)
      requires at.Sleeping?
      modifies this
      ensures View() == Step(config, old(View()), Wake(may))
    {
      if may { at := Ready(true); } else { EnterPause(true); }
    }

    method OnResume()
      requires at.Resuming?
      modifies this
      ensures View() == Step(config, old(View()), Resume)
    {
      at := Ready(at.retrying);
      if status.Pending? {
        log := log + [Continued];
      }
    }

    method OnReady(may: bool)
      requires at.Ready?
      modifies this
      ensures View() == Step(config, old(View()), Decide(may))
    {
      if at.retrying && retryCancelled {
        at := Ended;
        SettleWith(Rejected(lastError), may);
      } else {
        RunOnce();
      }
    }

    method Cancel(error: Error, may: bool)
      modifies this
      ensures View() == Step(config, old(View()), Event.Cancel(error, may))
    {
      if status.Pending? {
        SettleWith(Rejected(error), may);
        log := log + [CancelSeen];
      }
    }

    method SetRetryCancelled(cancelled: bool)
      modifies this`retryCancelled
      ensures View() == Step(config, old(View()), if cancelled then CancelRetry else ContinueRetry)
    {
      retryCancelled := cancelled;
    }
  }
}
