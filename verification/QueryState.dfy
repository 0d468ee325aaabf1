/**
 One query of the cache: its reducer, its fetches, and the state a cancelled fetch reverts to.

 Each fetch owns a retry machine (module Retryer) whose callbacks dispatch to the reducer at once,
 and a continuation that runs some time after the machine's promise has settled.
 */
module QueryState {
  import opened Options
  import R = Retryer

  datatype Status = Pending | Success | Error

  datatype FetchStatus = Idle | Fetching | Paused

  datatype State = State(
    data: Option<int>,
    error: Option<R.Error>,
    status: Status,
    fetchStatus: FetchStatus,
    fetchMeta: Option<int>,
    failureCount: int,
    failureReason: Option<R.Error>,
    isInvalidated: bool,
    dataUpdateCount: int,
    errorUpdateCount: int)

  datatype Action =
    | Failed(count: int, error: R.Error)
    | Pause
    | Continue
    | Fetch(meta: Option<int>, canFetch: bool)
    | Succeed(data: int, manual: bool)
    | Fail(error: R.Error)
    | Invalidate
    | Initial(data: int)              // setState with the success of an initial value
    | Restore(whole: State)           // setState with a whole state

  function Reduce(s: State, a: Action): State {
    match a
    case Failed(count, reason) => s.(failureCount := count, failureReason := Some(reason))
    case Pause => s.(fetchStatus := Paused)
    case Continue => s.(fetchStatus := Fetching)
    case Fetch(meta, canFetch) =>
      State(s.data, if s.data.None? then None else s.error, if s.data.None? then Pending else s.status,
            if canFetch then Fetching else Paused, meta, 0, None, s.isInvalidated, s.dataUpdateCount, s.errorUpdateCount)
    case Succeed(data, manual) =>
      State(Some(data), None, Success, if manual then s.fetchStatus else Idle, s.fetchMeta,
            if manual then s.failureCount else 0, if manual then s.failureReason else None,
            false, s.dataUpdateCount + 1, s.errorUpdateCount)
    case Fail(reason) =>
      State(s.data, Some(reason), Error, Idle, s.fetchMeta, s.failureCount + 1, Some(reason),
            true, s.dataUpdateCount, s.errorUpdateCount + 1)
    case Invalidate => s.(isInvalidated := true)
    case Initial(data) => s.(data := Some(data), error := None, isInvalidated := false, status := Success)
    case Restore(whole) => whole
  }

  /** The status says exactly which of data and error there is; an error may sit on older data. */
  predicate Shape(s: State) {
    && (s.status.Pending? <==> s.data.None? && s.error.None?)
    && (s.status.Success? <==> s.data.Some? && s.error.None?)
    && (s.status.Error? <==> s.error.Some?)
  }

  lemma ReduceKeepsShape(s: State, a: Action)
    requires Shape(s) && (a.Restore? ==> Shape(a.whole))
    ensures Shape(Reduce(s, a))
  {
  }

  function InitialState(data: Option<int>): State {
    State(data, None, if data.Some? then Success else Pending, Idle, None, 0, None, false, 0, 0)
  }

  // --- the query and its fetches ------------------------------------------------------------

  /** `awaiting`: the fetches whose continuation has not run. */
  datatype Query = Query(
    state: State,
    revert: Option<State>,
    initial: State,
    current: Option<int>,
    machines: map<int, R.Machine>,
    awaiting: set<int>,
    next: int)

  datatype Event =
    | StartFetch(cancelRefetch: bool, initialData: Option<int>, meta: Option<int>, canFetch: bool, may: bool)   // with the initial data of the options given
    | Machine(id: int, e: R.Event)           // a reaction, a timer or the function's promise
    | Resume(may: bool)                      // focus or online
    | StopRetrying                           // the last observer left
    | Cancel(revert: bool, silent: bool, may: bool)
    | Finish(id: int)                        // the continuation of a settled fetch
    | SetData(data: int)
    | SetOptions(initialData: Option<int>)
    | Reset(may: bool)
    | MarkStale

  function New(initialData: Option<int>): Query {
    Query(InitialState(initialData), None, InitialState(initialData), None, map[], {}, 0)
  }

  /** `dispatch`: a success also decides what a later cancel reverts to. */
  function Dispatch(q: Query, a: Action): Query {
    var state := Reduce(q.state, a);
    q.(state := state,
       revert := if !a.Succeed? then q.revert else if a.manual then Some(state) else None)
  }

  /** One callback of a fetch's machine. */
  function Deliver(q: Query, m: R.Machine, o: R.Output): Query {
    match o
    case Failed(count) => Dispatch(q, Action.Failed(count, m.lastError))
    case Paused => Dispatch(q, Pause)
    case Continued => Dispatch(q, Action.Continue)
    case CancelSeen =>
      if m.status.Rejected? && m.status.error.Cancelled? && m.status.error.revert then
        var target := if q.revert.Some? then q.revert.value else q.state;
        Dispatch(q, Restore(target.(fetchStatus := Idle)))
      else q
    case Called => q
    case Settled(_) => q
  }

  function DeliverAll(q: Query, m: R.Machine, outputs: seq<R.Output>): Query
    decreases |outputs|
  {
    if outputs == [] then q else DeliverAll(Deliver(q, m, outputs[0]), m, outputs[1..])
  }

  /** What a machine has put out since. */
  function Since(before: R.Machine, after: R.Machine): seq<R.Output> {
    if |before.log| <= |after.log| then after.log[|before.log|..] else []
  }

  function Advance(c: R.Config, q: Query, id: int, e: R.Event): Query
    requires id in q.machines
  {
    var m := R.Step(c, q.machines[id], e);
    DeliverAll(q.(machines := q.machines[id := m]), m, Since(q.machines[id], m))
  }

  function AdvanceCurrent(c: R.Config, q: Query, e: R.Event): Query {
    if q.current.Some? && q.current.value in q.machines then Advance(c, q, q.current.value, e) else q
  }

  predicate CurrentRejected(q: Query) {
    q.current.Some? && q.current.value in q.machines && q.machines[q.current.value].status.Rejected?
  }

  predicate Busy(q: Query) {
    !q.state.fetchStatus.Idle? && !CurrentRejected(q)
  }

  /** The fetch joins the one that is going on. */
  predicate Joins(q: Query, cancelRefetch: bool) {
    Busy(q) && !(q.state.data.Some? && cancelRefetch) && q.current.Some?
  }

  /** `fetchMeta` differs from what the caller gave; giving nothing differs from everything. */
  predicate NewMeta(q: Query, meta: Option<int>) {
    meta.None? || q.state.fetchMeta != meta
  }

  /** A new fetch up to its start: remember the state, dispatch, and make the machine. */
  function Made(q: Query, meta: Option<int>, canFetch: bool): Query {
    var remembered := q.(revert := Some(q.state));
    var dispatched :=
      if q.state.fetchStatus.Idle? || NewMeta(q, meta) then Dispatch(remembered, Action.Fetch(meta, canFetch)) else remembered;
    dispatched.(machines := dispatched.machines[q.next := R.NEW], current := Some(q.next),
                awaiting := dispatched.awaiting + {q.next}, next := q.next + 1)
  }

  function Begin(c: R.Config, q: Query, meta: Option<int>, canFetch: bool): Query {
    Advance(c, Made(q, meta, canFetch), q.next, R.Start(canFetch))
  }

  function FetchStep(c: R.Config, q: Query, cancelRefetch: bool, initialData: Option<int>, meta: Option<int>, canFetch: bool, may: bool): Query {
    if Joins(q, cancelRefetch) then AdvanceCurrent(c, q, R.ContinueRetry)
    else
      Begin(c, WithInitial(Cleared(c, q, cancelRefetch, may), initialData), meta, canFetch)
  }

  /** A refetch that cancels does so silently. */
  function Cleared(c: R.Config, q: Query, cancelRefetch: bool, may: bool): Query {
    if Busy(q) && q.state.data.Some? && cancelRefetch
    then AdvanceCurrent(c, q, R.Cancel(R.Cancelled(false, true), may)) else q
  }

  /** `setOptions`: initial data fills a query that has none. */
  function WithInitial(q: Query, initialData: Option<int>): Query {
    if q.state.data.None? && initialData.Some? then
      Dispatch(q, Initial(initialData.value)).(initial := InitialState(initialData))
    else q
  }

  /** What a continuation dispatches, if anything; a value of undefined is an error. */
  function Landing(m: R.Machine): Option<Action> {
    match m.status
    case Pending => None
    case Resolved(Some(data)) => Some(Succeed(data, false))
    case Resolved(None) => Some(Fail(R.Thrown(-1)))
    case Rejected(error) => if error.Cancelled? && (error.silent || error.revert) then None else Some(Fail(error))
  }

  predicate Settled(q: Query, id: int) {
    id in q.machines && !q.machines[id].status.Pending?
  }

  function FinishStep(q: Query, id: int): Query {
    if id !in q.awaiting || !Settled(q, id) then q
    else
      var finished := q.(awaiting := q.awaiting - {id});
      match Landing(q.machines[id])
      case None => finished
      case Some(action) => Dispatch(finished, action)
  }

  predicate OwnEvent(e: R.Event) {
    e.Succeeds? || e.Fails? || e.Wake? || e.Resume? || e.Decide?
  }

  function Step(c: R.Config, q: Query, e: Event): Query {
    match e
    case StartFetch(cancelRefetch, initialData, meta, canFetch, may) => FetchStep(c, q, cancelRefetch, initialData, meta, canFetch, may)
    case Machine(id, e) => if id in q.machines && OwnEvent(e) then Advance(c, q, id, e) else q
    case Resume(may) => AdvanceCurrent(c, q, R.Continue(may))
    case StopRetrying => AdvanceCurrent(c, q, R.CancelRetry)
    case Cancel(revert, silent, may) => AdvanceCurrent(c, q, R.Cancel(R.Cancelled(revert, silent), may))
    case Finish(id) => FinishStep(q, id)
    case SetData(data) => Dispatch(q, Succeed(data, true))
    case SetOptions(initialData) => WithInitial(q, initialData)
    case Reset(may) =>
      var cancelled := AdvanceCurrent(c, q, R.Cancel(R.Cancelled(false, true), may));
      Dispatch(cancelled, Restore(cancelled.initial))
    case MarkStale => if q.state.isInvalidated then q else Dispatch(q, Invalidate)
  }

  function Exec(c: R.Config, q: Query, es: seq<Event>): Query
    decreases |es|
  {
    if es == [] then q else Exec(c, Step(c, q, es[0]), es[1..])
  }

  // --- the shape of the state -------------------------------------------------------------------

  predicate Shapes(q: Query) {
    && Shape(q.state)
    && Shape(q.initial)
    && (q.revert.Some? ==> Shape(q.revert.value))
  }

  lemma DispatchKeeps(q: Query, a: Action)
    requires Shapes(q) && (a.Restore? ==> Shape(a.whole))
    ensures Shapes(Dispatch(q, a))
  {
  }

  /** Delivering callbacks changes the state only. */
  lemma {:induction false} DeliverKeeps(q: Query, m: R.Machine, outputs: seq<R.Output>)
    ensures DeliverAll(q, m, outputs) == q.(state := DeliverAll(q, m, outputs).state)
    ensures Shapes(q) ==> Shapes(DeliverAll(q, m, outputs))
    decreases |outputs|
  {
    if outputs != [] {
      DeliverKeeps(Deliver(q, m, outputs[0]), m, outputs[1..]);
    }
  }

  lemma AdvanceKeeps(c: R.Config, q: Query, id: int, e: R.Event)
    requires id in q.machines
    ensures var t := Advance(c, q, id, e);
            && t == q.(state := t.state, machines := q.machines[id := R.Step(c, q.machines[id], e)])
            && (Shapes(q) ==> Shapes(t))
  {
    var m := R.Step(c, q.machines[id], e);
    DeliverKeeps(q.(machines := q.machines[id := m]), m, Since(q.machines[id], m));
  }

  lemma CurrentKeeps(c: R.Config, q: Query, e: R.Event)
    ensures var t := AdvanceCurrent(c, q, e);
            && t == q.(state := t.state, machines := t.machines)
            && (Shapes(q) ==> Shapes(t))
  {
    if q.current.Some? && q.current.value in q.machines {
      AdvanceKeeps(c, q, q.current.value, e);
    }
  }

  /** A new fetch is made and its machine started; the start changes no more than what is shown of it. */
  lemma BeginIs(c: R.Config, q: Query, meta: Option<int>, canFetch: bool)
    ensures var made, t := Made(q, meta, canFetch), Begin(c, q, meta, canFetch);
            && t == made.(state := t.state, machines := q.machines[q.next := R.Step(c, R.NEW, R.Start(canFetch))])
            && (Shapes(q) ==> Shapes(t))
  {
    AdvanceKeeps(c, Made(q, meta, canFetch), q.next, R.Start(canFetch));
  }

  lemma BeginKeeps(c: R.Config, q: Query, meta: Option<int>, canFetch: bool)
    requires Shapes(q)
    ensures Shapes(Begin(c, q, meta, canFetch))
  {
    BeginIs(c, q, meta, canFetch);
  }

  lemma StepKeepsShapes(c: R.Config, q: Query, e: Event)
    requires Shapes(q)
    ensures Shapes(Step(c, q, e))
  {
    match e {
      case StartFetch(cancelRefetch, initialData, meta, canFetch, may) =>
        CurrentKeeps(c, q, R.ContinueRetry);
        CurrentKeeps(c, q, R.Cancel(R.Cancelled(false, true), may));
        BeginKeeps(c, WithInitial(Cleared(c, q, cancelRefetch, may), initialData), meta, canFetch);
      case Machine(id, e) => if id in q.machines { AdvanceKeeps(c, q, id, e); }
      case Resume(may) => CurrentKeeps(c, q, R.Continue(may));
      case StopRetrying => CurrentKeeps(c, q, R.CancelRetry);
      case Cancel(revert, silent, may) => CurrentKeeps(c, q, R.Cancel(R.Cancelled(revert, silent), may));
      case Reset(may) =>
        CurrentKeeps(c, q, R.Cancel(R.Cancelled(false, true), may));
        DispatchKeeps(AdvanceCurrent(c, q, R.Cancel(R.Cancelled(false, true), may)), Restore(q.initial));
      case _ =>
    }
  }

  /** Over every run: pending means no data and no error, success means data and no error, error means an error. */
  lemma {:induction false} StatusIsTruthful(c: R.Config, q: Query, es: seq<Event>)
    requires Shapes(q)
    ensures Shapes(Exec(c, q, es))
    decreases |es|
  {
    if es != [] {
      StepKeepsShapes(c, q, es[0]);
      StatusIsTruthful(c, Step(c, q, es[0]), es[1..]);
    }
  }

  // --- what a cancelled fetch reverts to -----------------------------------------------------------

  /** The fetch does not join a running one. */
  predicate Starts(q: Query, e: Event) {
    e.StartFetch? && !Joins(q, e.cancelRefetch)
  }

  /** The continuation of a fetch that brought data. */
  predicate Lands(q: Query, e: Event) {
    e.Finish? && e.id in q.awaiting && Settled(q, e.id) && Landing(q.machines[e.id]).Some? && Landing(q.machines[e.id]).value.Succeed?
  }

  lemma DeliverTwo(q: Query, m: R.Machine, o: R.Output, o': R.Output)
    ensures DeliverAll(q, m, [o, o']) == Deliver(Deliver(q, m, o), m, o')
  {
    assert [o, o'][1..] == [o'] && [o'][1..] == [];
    assert DeliverAll(Deliver(q, m, o), m, [o']) == DeliverAll(Deliver(Deliver(q, m, o), m, o'), m, []);
  }

  /** A cancel of a pending machine is delivered as one restore, or as nothing. */
  lemma CancelDelivers(c: R.Config, q: Query, id: int, revert: bool, silent: bool, may: bool)
    requires InFlight(q, id)
    ensures var t := Advance(c, q, id, R.Cancel(R.Cancelled(revert, silent), may));
            && id in t.machines && t.machines[id].status == R.Rejected(R.Cancelled(revert, silent))
            && t.state == if revert then (if q.revert.Some? then q.revert.value else q.state).(fetchStatus := Idle) else q.state
  {
    var m := q.machines[id];
    var t := R.Step(c, m, R.Cancel(R.Cancelled(revert, silent), may));
    assert Since(m, t) == [R.Settled(t.status), R.CancelSeen];
    DeliverTwo(q.(machines := q.machines[id := t]), t, R.Settled(t.status), R.CancelSeen);
    AdvanceKeeps(c, q, id, R.Cancel(R.Cancelled(revert, silent), may));
  }

  /** A silent cancel of the current fetch leaves the state alone. */
  lemma SilentCancel(c: R.Config, q: Query, may: bool)
    ensures AdvanceCurrent(c, q, R.Cancel(R.Cancelled(false, true), may)).state == q.state
  {
    if q.current.Some? && q.current.value in q.machines {
      var m := q.machines[q.current.value];
      if m.status.Pending? {
        CancelDelivers(c, q, q.current.value, false, true, may);
      } else {
        assert Since(m, R.Step(c, m, R.Cancel(R.Cancelled(false, true), may))) == [];
      }
    }
  }

  /** The state a fetch starts from, its options taken up. */
  function StateBefore(q: Query, e: Event): State
    requires e.StartFetch?
  {
    WithInitial(q, e.initialData).state
  }

  /** How one event changes what a cancel would revert to. */
  lemma RevertMoves(c: R.Config, q: Query, e: Event)
    ensures var t := Step(c, q, e);
            t.revert == if Starts(q, e) then Some(StateBefore(q, e))
                        else if e.SetData? then Some(t.state)
                        else if Lands(q, e) then None
                        else q.revert
  {
    match e {
      case StartFetch(cancelRefetch, initialData, meta, canFetch, may) =>
        CurrentKeeps(c, q, R.ContinueRetry);
        SilentCancel(c, q, may);
        BeginIs(c, WithInitial(Cleared(c, q, cancelRefetch, may), initialData), meta, canFetch);
      case Machine(id, e) => if id in q.machines { AdvanceKeeps(c, q, id, e); }
      case Resume(may) => CurrentKeeps(c, q, R.Continue(may));
      case StopRetrying => CurrentKeeps(c, q, R.CancelRetry);
      case Cancel(revert, silent, may) => CurrentKeeps(c, q, R.Cancel(R.Cancelled(revert, silent), may));
      case Reset(may) => CurrentKeeps(c, q, R.Cancel(R.Cancelled(false, true), may));
      case _ =>
    }
  }

  predicate NoStart(c: R.Config, q: Query, es: seq<Event>)
    decreases |es|
  {
    es == [] || (!Starts(q, es[0]) && NoStart(c, Step(c, q, es[0]), es[1..]))
  }

  /** The data of the latest manual set of a run, else what was kept before; a landing fetch forgets it. */
  function Latest(c: R.Config, q: Query, es: seq<Event>, kept: Option<Option<int>>): Option<Option<int>>
    decreases |es|
  {
    if es == [] then kept
    else
      Latest(c, Step(c, q, es[0]), es[1..],
             if es[0].SetData? then Some(Some(es[0].data)) else if Lands(q, es[0]) then None else kept)
  }

  function RevertData(q: Query): Option<Option<int>> {
    match q.revert case Some(s) => Some(s.data) case None => None
  }

  lemma {:induction false} RevertTracksLatest(c: R.Config, q: Query, es: seq<Event>)
    requires NoStart(c, q, es)
    ensures RevertData(Exec(c, q, es)) == Latest(c, q, es, RevertData(q))
    decreases |es|
  {
    if es != [] {
      RevertMoves(c, q, es[0]);
      RevertTracksLatest(c, Step(c, q, es[0]), es[1..]);
    }
  }

  predicate InFlight(q: Query, id: int) {
    id in q.machines && q.machines[id].status.Pending?
  }

  lemma CancelRestores(c: R.Config, q: Query, silent: bool, may: bool)
    requires q.current.Some? && InFlight(q, q.current.value)
    ensures var t := Step(c, q, Cancel(true, silent, may));
            && t.state == (if q.revert.Some? then q.revert.value else q.state).(fetchStatus := Idle)
            && Settled(t, q.current.value) && Landing(t.machines[q.current.value]).None?
  {
    CancelDelivers(c, q, q.current.value, true, silent, may);
  }

  /**
   Cancelling a fetch with revert, after any run in which no other fetch started, leaves the latest
   of the data before the fetch and any data set by hand since; if an earlier fetch landed in
   between, it leaves what is there.
   */
  lemma CancelReverts(c: R.Config, q: Query, start: Event, es: seq<Event>, silent: bool, may: bool)
    requires Starts(q, start) && NoStart(c, Step(c, q, start), es)
    requires var r := Exec(c, Step(c, q, start), es); r.current.Some? && InFlight(r, r.current.value)
    ensures var r := Exec(c, Step(c, q, start), es);
            var t := Step(c, r, Cancel(true, silent, may));
            && t.state.fetchStatus.Idle?
            && t.state.data == (match Latest(c, Step(c, q, start), es, Some(StateBefore(q, start).data)) case Some(d) => d case None => r.state.data)
  {
    RevertMoves(c, q, start);
    RevertTracksLatest(c, Step(c, q, start), es);
    CancelRestores(c, Exec(c, Step(c, q, start), es), silent, may);
  }

  // --- what a fetch leaves ------------------------------------------------------------------------

  /** The continuation of a fetch that brought data sets that data, and whatever was wrong is forgotten. */
  lemma DataLands(c: R.Config, q: Query, id: int, data: int)
    requires id in q.awaiting && id in q.machines && q.machines[id].status == R.Resolved(Some(data))
    ensures var s, t := q.state, Step(c, q, Finish(id));
            && t.state.data == Some(data) && t.state.status.Success? && t.state.error.None? && t.state.fetchStatus.Idle?
            && t.state.failureCount == 0 && t.state.failureReason.None? && !t.state.isInvalidated
            && t.state.dataUpdateCount == s.dataUpdateCount + 1 && t.state.errorUpdateCount == s.errorUpdateCount
            && t.state.fetchMeta == s.fetchMeta
            && t.revert.None? && t == q.(state := t.state, revert := None, awaiting := q.awaiting - {id})
  {
  }

  /** A rejection that is neither silent nor reverting leaves that very error, on the data there was. */
  lemma ErrorLands(c: R.Config, q: Query, id: int, error: R.Error)
    requires id in q.awaiting && id in q.machines && q.machines[id].status == R.Rejected(error)
    requires error.Cancelled? ==> !error.silent && !error.revert
    ensures var s, t := q.state, Step(c, q, Finish(id));
            && t.state.error == Some(error) && t.state.status.Error? && t.state.fetchStatus.Idle? && t.state.isInvalidated
            && t.state.data == s.data && t.state.dataUpdateCount == s.dataUpdateCount
            && t.state.failureCount == s.failureCount + 1 && t.state.failureReason == Some(error)
            && t.state.errorUpdateCount == s.errorUpdateCount + 1 && t.state.fetchMeta == s.fetchMeta
            && t == q.(state := t.state, awaiting := q.awaiting - {id})
  {
  }

  predicate Hushed(status: R.Status) {
    status.Rejected? && status.error.Cancelled? && (status.error.silent || status.error.revert)
  }

  /** A silent or reverting cancel lands nothing, and a value of undefined lands as an error. */
  lemma NothingOrUndefinedLands(c: R.Config, q: Query, id: int)
    requires id in q.awaiting && id in q.machines
    ensures var t := Step(c, q, Finish(id));
            && (Hushed(q.machines[id].status) ==> t == q.(awaiting := q.awaiting - {id}))
            && (q.machines[id].status == R.Resolved(None) ==>
                  t.state.status.Error? && t.state.data == q.state.data && t.state.fetchStatus.Idle? && t.revert == q.revert)
            && (q.machines[id].status.Pending? ==> t == q)
  {
  }

  /** Data set by hand is there at once, and a fetch in flight goes on. */
  lemma DataIsSet(c: R.Config, q: Query, data: int)
    ensures var s, t := q.state, Step(c, q, SetData(data));
            && t.state == s.(data := Some(data), error := None, status := Success, isInvalidated := false,
                             dataUpdateCount := s.dataUpdateCount + 1)
            && t == q.(state := t.state, revert := Some(t.state))
  {
  }

  /** A new query holds its initial data, if any, and nothing else, and a reset restores just that. */
  lemma NewHolds(initialData: Option<int>)
    ensures var q := New(initialData);
            && q.state == State(initialData, None, if initialData.Some? then Success else Pending, Idle, None, 0, None, false, 0, 0)
            && q.initial == q.state && q.revert.None? && q.current.None? && q.machines == map[] && q.awaiting == {}
  {
  }

  /** Initial data fills a query that has none, also as what it is reset to, and nothing else. */
  lemma InitialFills(c: R.Config, q: Query, initialData: Option<int>)
    ensures var s, t := q.state, Step(c, q, SetOptions(initialData));
            if s.data.None? && initialData.Some? then
              && t.state == s.(data := initialData, error := None, status := Success, isInvalidated := false)
              && t.initial.data == initialData && t.initial.status.Success? && t.initial.error.None? && t.initial.fetchStatus.Idle?
              && t.initial.dataUpdateCount == t.initial.errorUpdateCount == t.initial.failureCount == 0
              && !t.initial.isInvalidated && t.initial.failureReason.None? && t.initial.fetchMeta.None?
              && t == q.(state := t.state, initial := t.initial)
            else t == q
  {
  }

  /** A reset leaves the initial state, with nothing in flight. */
  lemma ResetLeavesInitial(c: R.Config, q: Query, may: bool)
    ensures var t := Step(c, q, Reset(may));
            && t.state == q.initial && t.initial == q.initial
            && (q.current.Some? && q.current.value in q.machines ==> !InFlight(t, q.current.value))
  {
    CurrentKeeps(c, q, R.Cancel(R.Cancelled(false, true), may));
    if q.current.Some? && q.current.value in q.machines {
      AdvanceKeeps(c, q, q.current.value, R.Cancel(R.Cancelled(false, true), may));
    }
  }

  lemma MarkingStale(c: R.Config, q: Query)
    ensures Step(c, q, MarkStale) == q.(state := q.state.(isInvalidated := true))
  {
  }

  lemma DeliverOne(q: Query, m: R.Machine, o: R.Output)
    ensures DeliverAll(q, m, [o]) == Deliver(q, m, o)
  {
    assert [o][1..] == [] && DeliverAll(q, m, [o]) == DeliverAll(Deliver(q, m, o), m, []);
  }

  /** What a fetch in flight shows of itself: a failure that is retried, a pause, and the end of a pause. */
  lemma MachineShows(c: R.Config, q: Query, id: int, e: R.Event)
    requires InFlight(q, id) && OwnEvent(e)
    ensures var m, s, t := q.machines[id], q.state, Step(c, q, Machine(id, e));
            t.state == if m.at.Running? && e.Fails? && !m.retryCancelled && R.ShouldRetry(c, m, e.error)
                         then s.(failureCount := m.failureCount + 1, failureReason := Some(e.error))
                       else if m.at.Sleeping? && e == R.Wake(false) then s.(fetchStatus := Paused)
                       else if m.at.Resuming? && e.Resume? then s.(fetchStatus := Fetching)
                       else s
  {
    var m := q.machines[id];
    var m' := R.Step(c, m, e);
    var base, since := q.(machines := q.machines[id := m']), Since(m, m');
    if since != [] {
      assert since == [since[0]];
      DeliverOne(base, m', since[0]);
    }
  }

  /** A cancel that is not to revert, a continue, and giving up retries change the state no sooner than they take effect. */
  lemma NudgesShowNothing(c: R.Config, q: Query, silent: bool, may: bool)
    ensures Step(c, q, Cancel(false, silent, may)).state == q.state
    ensures Step(c, q, Resume(may)).state == q.state && Step(c, q, StopRetrying).state == q.state
  {
    if q.current.Some? && q.current.value in q.machines {
      var m := q.machines[q.current.value];
      assert Since(m, R.Step(c, m, R.Continue(may))) == [] && Since(m, R.Step(c, m, R.CancelRetry)) == [];
      if m.status.Pending? {
        CancelDelivers(c, q, q.current.value, false, silent, may);
      } else {
        assert Since(m, R.Step(c, m, R.Cancel(R.Cancelled(false, silent), may))) == [];
      }
    }
  }

  /**
   What a new fetch shows: a clean failure count, its meta, and whether it runs or waits for the
   network; without data the old error goes too.  Only over a fetch that is still shown as going on,
   with the very same meta, nothing of that is reset.
   */
  lemma FetchShows(c: R.Config, q: Query, initialData: Option<int>, meta: Option<int>, canFetch: bool, may: bool, cancelRefetch: bool)
    requires Starts(q, StartFetch(cancelRefetch, initialData, meta, canFetch, may))
    ensures var e := StartFetch(cancelRefetch, initialData, meta, canFetch, may);
            var s, t := StateBefore(q, e), Step(c, q, e);
            && (q.state.fetchStatus.Idle? || meta.None? || meta != q.state.fetchMeta ==>
                  t.state == s.(failureCount := 0, failureReason := None, fetchMeta := meta,
                                fetchStatus := if canFetch then Fetching else Paused,
                                error := if s.data.None? then None else s.error,
                                status := if s.data.None? then Pending else s.status))
            && (!q.state.fetchStatus.Idle? && meta.Some? && meta == q.state.fetchMeta ==>
                  t.state == if canFetch then s else s.(fetchStatus := Paused))
            && t.next == q.next + 1 && t.current == Some(q.next) && q.next in t.awaiting && InFlight(t, q.next)
            && t.machines[q.next].at == if canFetch then R.Running else R.Parked(false)
  {
    SilentCancel(c, q, may);
    CurrentKeeps(c, q, R.Cancel(R.Cancelled(false, true), may));
    BeginShows(c, WithInitial(Cleared(c, q, cancelRefetch, may), initialData), meta, canFetch);
  }

  lemma BeginShows(c: R.Config, q: Query, meta: Option<int>, canFetch: bool)
    ensures var t := Begin(c, q, meta, canFetch);
            var s := if q.state.fetchStatus.Idle? || NewMeta(q, meta) then Reduce(q.state, Action.Fetch(meta, canFetch)) else q.state;
            && t.state == (if canFetch then s else s.(fetchStatus := Paused))
            && t.next == q.next + 1 && t.current == Some(q.next) && q.next in t.awaiting && InFlight(t, q.next)
            && t.machines[q.next].at == if canFetch then R.Running else R.Parked(false)
  {
    var made := Made(q, meta, canFetch);
    AdvanceKeeps(c, made, q.next, R.Start(canFetch));
    var m := R.Step(c, R.NEW, R.Start(canFetch));
    var since := Since(R.NEW, m);
    if since != [] {
      assert since == [since[0]];
      DeliverOne(made.(machines := made.machines[q.next := m]), m, since[0]);
    }
  }

  /** The fetch that a new one replaces is cancelled silently, and no other fetch is touched. */
  lemma ReplacedIsCancelled(c: R.Config, q: Query, e: Event, id: int)
    requires Starts(q, e) && id in q.machines && id != q.next
    ensures var t := Step(c, q, e);
            var replaced := q.state.data.Some? && e.cancelRefetch && !q.state.fetchStatus.Idle? && q.current == Some(id);
            && id in t.machines
            && (replaced && InFlight(q, id) ==> t.machines[id].status == R.Rejected(R.Cancelled(false, true)))
            && (!(replaced && InFlight(q, id)) ==> t.machines[id] == q.machines[id])
  {
    ClearedIs(c, q, e.cancelRefetch, e.may, id);
    BeginSpares(c, WithInitial(Cleared(c, q, e.cancelRefetch, e.may), e.initialData), e.meta, e.canFetch, id);
  }

  lemma BeginSpares(c: R.Config, q: Query, meta: Option<int>, canFetch: bool, id: int)
    requires id in q.machines && id != q.next
    ensures var t := Begin(c, q, meta, canFetch); id in t.machines && t.machines[id] == q.machines[id]
  {
    BeginIs(c, q, meta, canFetch);
  }

  lemma ClearedIs(c: R.Config, q: Query, cancelRefetch: bool, may: bool, id: int)
    requires id in q.machines
    ensures var t := Cleared(c, q, cancelRefetch, may);
            && id in t.machines && t.next == q.next
            && (InFlight(q, id) && Busy(q) && q.state.data.Some? && cancelRefetch && q.current == Some(id) ==>
                  t.machines[id].status == R.Rejected(R.Cancelled(false, true)))
            && (!(InFlight(q, id) && Busy(q) && q.state.data.Some? && cancelRefetch && q.current == Some(id)) ==>
                  t.machines[id] == q.machines[id])
  {
    if q.current.Some? && q.current.value in q.machines {
      AdvanceKeeps(c, q, q.current.value, R.Cancel(R.Cancelled(false, true), may));
    }
  }

  /** A fetch that joins the one going on lets it retry again, and changes nothing else. */
  lemma JoiningShows(c: R.Config, q: Query, e: Event)
    requires e.StartFetch? && Joins(q, e.cancelRefetch)
    ensures var t := Step(c, q, e);
            && t.state == q.state && t.next == q.next && t.current == q.current && t.awaiting == q.awaiting && t.revert == q.revert
            && (q.current.value in q.machines ==>
                  t.machines == q.machines[q.current.value := q.machines[q.current.value].(retryCancelled := false)])
  {
    if q.current.value in q.machines {
      var m := q.machines[q.current.value];
      AdvanceKeeps(c, q, q.current.value, R.ContinueRetry);
      assert Since(m, R.Step(c, m, R.ContinueRetry)) == [];
    }
  }

  /** A fetch joins exactly if one is shown as going on and has not been rejected, unless it is to replace one that has data. */
  lemma JoinsIff(q: Query, e: Event)
    requires e.StartFetch?
    ensures Starts(q, e) <==>
            || q.state.fetchStatus.Idle?
            || q.current.None?
            || (q.current.value in q.machines && q.machines[q.current.value].status.Rejected?)
            || (q.state.data.Some? && e.cancelRefetch)
  {
  }

  /** A fetch that settled stays settled that way until its continuation runs, whatever happens in between. */
  predicate Lingers(q: Query, id: int, status: R.Status) {
    && id in q.awaiting
    && id in q.machines
    && id < q.next
    && q.machines[id].status == status
    && !status.Pending?
  }

  lemma AdvanceLingers(c: R.Config, q: Query, other: int, e: R.Event, id: int, status: R.Status)
    requires Lingers(q, id, status) && other in q.machines && (e.Start? ==> other != id)
    ensures Lingers(Advance(c, q, other, e), id, status)
  {
    AdvanceKeeps(c, q, other, e);
  }

  lemma CurrentLingers(c: R.Config, q: Query, e: R.Event, id: int, status: R.Status)
    requires Lingers(q, id, status) && !e.Start?
    ensures Lingers(AdvanceCurrent(c, q, e), id, status)
  {
    if q.current.Some? && q.current.value in q.machines {
      AdvanceLingers(c, q, q.current.value, e, id, status);
    }
  }

  lemma BeginLingers(c: R.Config, q: Query, meta: Option<int>, canFetch: bool, id: int, status: R.Status)
    requires Lingers(q, id, status)
    ensures Lingers(Begin(c, q, meta, canFetch), id, status)
  {
    AdvanceLingers(c, Made(q, meta, canFetch), q.next, R.Start(canFetch), id, status);
  }

  lemma StepLingers(c: R.Config, q: Query, e: Event, id: int, status: R.Status)
    requires Lingers(q, id, status) && e != Finish(id)
    ensures Lingers(Step(c, q, e), id, status)
  {
    match e {
      case StartFetch(cancelRefetch, initialData, meta, canFetch, may) =>
        CurrentLingers(c, q, R.ContinueRetry, id, status);
        CurrentLingers(c, q, R.Cancel(R.Cancelled(false, true), may), id, status);
        BeginLingers(c, WithInitial(Cleared(c, q, cancelRefetch, may), initialData), meta, canFetch, id, status);
      case Machine(other, e) => if other in q.machines && OwnEvent(e) { AdvanceLingers(c, q, other, e, id, status); }
      case Resume(may) => CurrentLingers(c, q, R.Continue(may), id, status);
      case StopRetrying => CurrentLingers(c, q, R.CancelRetry, id, status);
      case Cancel(revert, silent, may) => CurrentLingers(c, q, R.Cancel(R.Cancelled(revert, silent), may), id, status);
      case Reset(may) => CurrentLingers(c, q, R.Cancel(R.Cancelled(false, true), may), id, status);
      case _ =>
    }
  }

  lemma {:induction false} RunLingers(c: R.Config, q: Query, es: seq<Event>, id: int, status: R.Status)
    requires Lingers(q, id, status) && Finish(id) !in es
    ensures Lingers(Exec(c, q, es), id, status)
    decreases |es|
  {
    if es != [] {
      StepLingers(c, q, es[0], id, status);
      RunLingers(c, Step(c, q, es[0]), es[1..], id, status);
    }
  }

  /**
   What the function of a fetch in flight brings is what the query holds once the continuation has
   run, whatever happens in between: the very data, or the very error of a last failure.
   */
  lemma FetchedArrives(c: R.Config, q: Query, id: int, e: R.Event, es: seq<Event>)
    requires id in q.awaiting && id < q.next && InFlight(q, id) && q.machines[id].at.Running? && Finish(id) !in es
    requires (e.Succeeds? && e.value.Some?) || (e.Fails? && e.error.Thrown? && !R.ShouldRetry(c, q.machines[id], e.error))
    ensures var t := Step(c, Exec(c, Step(c, q, Machine(id, e)), es), Finish(id));
            && t.state.fetchStatus.Idle?
            && (e.Succeeds? ==> t.state.data == e.value && t.state.status.Success?)
            && (e.Fails? ==> t.state.error == Some(e.error) && t.state.status.Error?)
  {
    AdvanceKeeps(c, q, id, e);
    var t := Step(c, q, Machine(id, e));
    var status := if e.Succeeds? then R.Resolved(e.value) else R.Rejected(e.error);
    assert Lingers(t, id, status);
    RunLingers(c, t, es, id, status);
    var r := Exec(c, t, es);
    if e.Succeeds? { DataLands(c, r, id, e.value.value); } else { ErrorLands(c, r, id, e.error); }
  }

  // --- how many fetches are in flight -----------------------------------------------------------------

  /** A settled fetch whose continuation is still to dispatch something. */
  predicate Noisy(q: Query, id: int) {
    && id in q.awaiting
    && Settled(q, id)
    && Landing(q.machines[id]).Some?
  }

  /** A fetch starts while an earlier one has settled but has not been taken note of. */
  ghost predicate Overlaps(q: Query, e: Event) {
    Starts(q, e) && exists id :: Noisy(q, id)
  }

  ghost predicate AtMostOneInFlight(q: Query) {
    forall i, j :: InFlight(q, i) && InFlight(q, j) ==> i == j
  }

  /** Only the current fetch is in flight, and then the state says so and nothing old is about to land. */
  ghost predicate Safe(q: Query) {
    && (forall id :: id in q.machines ==> id < q.next)
    && (forall id :: id in q.awaiting ==> id < q.next)
    && (forall id :: InFlight(q, id) ==> q.current == Some(id) && !q.state.fetchStatus.Idle?)
    && (forall id, a :: InFlight(q, id) ==> !Noisy(q, a))
  }

  predicate HasRevert(m: R.Machine) {
    m.status.Rejected? && m.status.error.Cancelled? && m.status.error.revert
  }

  /** No callback but a reverting cancel makes the query idle. */
  lemma {:induction false} DeliverStaysBusy(q: Query, m: R.Machine, outputs: seq<R.Output>)
    requires m.status.Pending? || !HasRevert(m) || R.CancelSeen !in outputs
    ensures !q.state.fetchStatus.Idle? ==> !DeliverAll(q, m, outputs).state.fetchStatus.Idle?
    decreases |outputs|
  {
    if outputs != [] {
      assert outputs[0] in outputs;
      DeliverStaysBusy(Deliver(q, m, outputs[0]), m, outputs[1..]);
    }
  }

  /** A step of one machine starts no other, never unsettles it, and while it stays pending the query stays busy. */
  lemma AdvanceFlies(c: R.Config, q: Query, id: int, e: R.Event)
    requires id in q.machines
    ensures var t := Advance(c, q, id, e);
            && (forall i :: InFlight(t, i) ==> InFlight(q, i))
            && (forall i :: i != id ==> (Noisy(t, i) <==> Noisy(q, i)))
            && (InFlight(t, id) && !q.state.fetchStatus.Idle? ==> !t.state.fetchStatus.Idle?)
  {
    AdvanceKeeps(c, q, id, e);
    var m := R.Step(c, q.machines[id], e);
    if m.status.Pending? {
      DeliverStaysBusy(q.(machines := q.machines[id := m]), m, Since(q.machines[id], m));
    }
  }

  /** A step of a settled machine leaves it settled as it was, and the query busy if it was. */
  lemma SettledAdvance(c: R.Config, q: Query, id: int, e: R.Event)
    requires Settled(q, id) && !e.Start?
    ensures var t := Advance(c, q, id, e);
            && Settled(t, id) && (Noisy(t, id) <==> Noisy(q, id))
            && (!q.state.fetchStatus.Idle? ==> !t.state.fetchStatus.Idle?)
  {
    AdvanceKeeps(c, q, id, e);
    var m := R.Step(c, q.machines[id], e);
    var s := Since(q.machines[id], m);
    assert m.status == q.machines[id].status;
    assert m.log == q.machines[id].log || m.log == q.machines[id].log + [R.Output.Paused];
    assert s == [] || s == [R.Output.Paused];
    DeliverStaysBusy(q.(machines := q.machines[id := m]), m, s);
  }

  lemma AdvanceKeepsSafe(c: R.Config, q: Query, id: int, e: R.Event)
    requires Safe(q) && id in q.machines && !e.Start?
    ensures Safe(Advance(c, q, id, e))
  {
    var t := Advance(c, q, id, e);
    AdvanceKeeps(c, q, id, e);
    AdvanceFlies(c, q, id, e);
    if Settled(q, id) {
      SettledAdvance(c, q, id, e);
    } else {
      assert InFlight(q, id);
      assert InFlight(t, id) ==> !Noisy(t, id);
      assert forall i :: InFlight(t, i) ==> i == id;
    }
  }

  lemma CurrentKeepsSafe(c: R.Config, q: Query, e: R.Event)
    requires Safe(q) && !e.Start?
    ensures Safe(AdvanceCurrent(c, q, e))
  {
    if q.current.Some? && q.current.value in q.machines {
      AdvanceKeepsSafe(c, q, q.current.value, e);
    }
  }

  ghost predicate Quiet(q: Query) {
    (forall id :: !InFlight(q, id)) && (forall id :: !Noisy(q, id))
  }

  /** A new fetch on a quiet query is the only one in flight. */
  lemma BeginFlies(c: R.Config, q: Query, meta: Option<int>, canFetch: bool)
    ensures var t := Begin(c, q, meta, canFetch);
            && t.current == Some(q.next) && t.next == q.next + 1 && InFlight(t, q.next)
            && t.machines == q.machines[q.next := t.machines[q.next]]
            && t.awaiting == q.awaiting + {q.next}
            && !t.state.fetchStatus.Idle?
  {
    var made := Made(q, meta, canFetch);
    assert !made.state.fetchStatus.Idle?;
    AdvanceKeeps(c, made, q.next, R.Start(canFetch));
    AdvanceFlies(c, made, q.next, R.Start(canFetch));
    assert R.Step(c, R.NEW, R.Start(canFetch)).status.Pending?;
  }

  lemma BeginKeepsSafe(c: R.Config, q: Query, meta: Option<int>, canFetch: bool)
    requires Safe(q) && Quiet(q)
    ensures Safe(Begin(c, q, meta, canFetch))
  {
    BeginFlies(c, q, meta, canFetch);
    var t := Begin(c, q, meta, canFetch);
    assert forall id :: InFlight(t, id) ==> id == q.next || InFlight(q, id);
    assert forall id :: id != q.next ==> (Noisy(t, id) <==> Noisy(q, id));
  }

  /** Cancelling the current fetch leaves none in flight; it was to be noisy only if it had settled before. */
  lemma CancelGrounds(c: R.Config, q: Query, revert: bool, silent: bool, may: bool)
    requires Safe(q) && (revert || silent)
    ensures var t := AdvanceCurrent(c, q, R.Cancel(R.Cancelled(revert, silent), may));
            && Safe(t)
            && (forall id :: !InFlight(t, id))
            && (forall id :: Noisy(t, id) ==> Noisy(q, id))
  {
    CurrentKeepsSafe(c, q, R.Cancel(R.Cancelled(revert, silent), may));
    if q.current.Some? && q.current.value in q.machines {
      AdvanceFlies(c, q, q.current.value, R.Cancel(R.Cancelled(revert, silent), may));
      AdvanceKeeps(c, q, q.current.value, R.Cancel(R.Cancelled(revert, silent), may));
    }
  }

  lemma FetchKeepsSafe(c: R.Config, q: Query, cancelRefetch: bool, initialData: Option<int>, meta: Option<int>, canFetch: bool, may: bool)
    requires Safe(q) && !Overlaps(q, StartFetch(cancelRefetch, initialData, meta, canFetch, may))
    ensures Safe(FetchStep(c, q, cancelRefetch, initialData, meta, canFetch, may))
  {
    if Joins(q, cancelRefetch) {
      CurrentKeepsSafe(c, q, R.ContinueRetry);
    } else {
      var cleared := Cleared(c, q, cancelRefetch, may);
      if Busy(q) && q.state.data.Some? && cancelRefetch {
        CancelGrounds(c, q, false, true, may);
      }
      InitialKeepsQuiet(cleared, initialData);
      BeginKeepsSafe(c, WithInitial(cleared, initialData), meta, canFetch);
    }
  }

  lemma InitialKeepsQuiet(q: Query, initialData: Option<int>)
    requires Safe(q)
    ensures var t := WithInitial(q, initialData); Safe(t) && (Quiet(q) ==> Quiet(t))
  {
    var t := WithInitial(q, initialData);
    assert forall i :: InFlight(t, i) <==> InFlight(q, i);
    assert forall i :: Noisy(t, i) <==> Noisy(q, i);
  }

  lemma FinishKeepsSafe(q: Query, id: int)
    requires Safe(q)
    ensures Safe(FinishStep(q, id))
  {
    var t := FinishStep(q, id);
    assert forall i :: InFlight(t, i) <==> InFlight(q, i);
    assert forall i :: Noisy(t, i) ==> Noisy(q, i);
    assert t.state != q.state ==> Noisy(q, id);
  }

  lemma SameFlights(q: Query, t: Query)
    requires Safe(q) && t.machines == q.machines && t.awaiting == q.awaiting && t.next == q.next && t.current == q.current
    requires t.state.fetchStatus == q.state.fetchStatus || forall id :: !InFlight(q, id)
    ensures Safe(t)
  {
    assert forall i :: InFlight(t, i) <==> InFlight(q, i);
    assert forall i :: Noisy(t, i) <==> Noisy(q, i);
  }

  lemma StepKeepsSafe(c: R.Config, q: Query, e: Event)
    requires Safe(q) && !Overlaps(q, e)
    ensures Safe(Step(c, q, e))
  {
    match e {
      case StartFetch(cancelRefetch, initialData, meta, canFetch, may) => FetchKeepsSafe(c, q, cancelRefetch, initialData, meta, canFetch, may);
      case Machine(id, e) => if id in q.machines && OwnEvent(e) { AdvanceKeepsSafe(c, q, id, e); }
      case Resume(may) => CurrentKeepsSafe(c, q, R.Continue(may));
      case StopRetrying => CurrentKeepsSafe(c, q, R.CancelRetry);
      case Cancel(revert, silent, may) => CurrentKeepsSafe(c, q, R.Cancel(R.Cancelled(revert, silent), may));
      case Finish(id) => FinishKeepsSafe(q, id);
      case Reset(may) =>
        CancelGrounds(c, q, false, true, may);
        SameFlights(AdvanceCurrent(c, q, R.Cancel(R.Cancelled(false, true), may)), Step(c, q, e));
      case _ => SameFlights(q, Step(c, q, e));
    }
  }

  ghost predicate NoOverlap(c: R.Config, q: Query, es: seq<Event>)
    decreases |es|
  {
    es == [] || (!Overlaps(q, es[0]) && NoOverlap(c, Step(c, q, es[0]), es[1..]))
  }

  /** In a run without such a start at most one fetch is ever in flight, and a fetch in flight shows in the state. */
  lemma {:induction false} OneInFlight(c: R.Config, q: Query, es: seq<Event>)
    requires Safe(q) && NoOverlap(c, q, es)
    ensures Safe(Exec(c, q, es)) && AtMostOneInFlight(Exec(c, q, es))
    decreases |es|
  {
    if es != [] {
      StepKeepsSafe(c, q, es[0]);
      OneInFlight(c, Step(c, q, es[0]), es[1..]);
    }
  }

  /** Without a start, no fetch comes into flight. */
  lemma NoneTakesOff(c: R.Config, q: Query, e: Event)
    requires !Starts(q, e)
    ensures forall i :: InFlight(Step(c, q, e), i) ==> InFlight(q, i)
  {
    if q.current.Some? && q.current.value in q.machines {
      var id := q.current.value;
      match e {
        case StartFetch(_, _, _, _, _) => AdvanceFlies(c, q, id, R.ContinueRetry);
        case Resume(may) => AdvanceFlies(c, q, id, R.Continue(may));
        case StopRetrying => AdvanceFlies(c, q, id, R.CancelRetry);
        case Cancel(revert, silent, may) => AdvanceFlies(c, q, id, R.Cancel(R.Cancelled(revert, silent), may));
        case Reset(may) => AdvanceFlies(c, q, id, R.Cancel(R.Cancelled(false, true), may));
        case _ =>
      }
    }
    if e.Machine? && e.id in q.machines {
      AdvanceFlies(c, q, e.id, e.e);
    }
  }

  /** While a safe fetch is in flight nothing lands. */
  lemma {:induction false} NothingLands(c: R.Config, q: Query, es: seq<Event>, id: int, kept: Option<Option<int>>)
    requires Safe(q) && NoStart(c, q, es) && kept.Some? && InFlight(Exec(c, q, es), id)
    ensures InFlight(q, id) && Latest(c, q, es, kept).Some?
    decreases |es|
  {
    if es != [] {
      var t := Step(c, q, es[0]);
      StepKeepsSafe(c, q, es[0]);
      NothingLands(c, t, es[1..], id, Some(None));
      NoneTakesOff(c, q, es[0]);
      assert Lands(q, es[0]) ==> Noisy(q, es[0].id);
      NothingLands(c, t, es[1..], id, if es[0].SetData? then Some(Some(es[0].data)) else kept);
    }
  }

  /** So a safe fetch that is cancelled with revert leaves exactly the latest of the data before it and any manual set since. */
  lemma SafeCancelReverts(c: R.Config, q: Query, start: Event, es: seq<Event>, silent: bool, may: bool)
    requires Safe(q) && Starts(q, start) && !Overlaps(q, start) && NoStart(c, Step(c, q, start), es)
    requires var r := Exec(c, Step(c, q, start), es); r.current.Some? && InFlight(r, r.current.value)
    ensures var t := Step(c, Exec(c, Step(c, q, start), es), Cancel(true, silent, may));
            t.state.fetchStatus.Idle? && Some(t.state.data) == Latest(c, Step(c, q, start), es, Some(StateBefore(q, start).data))
  {
    StepKeepsSafe(c, q, start);
    NothingLands(c, Step(c, q, start), es, Exec(c, Step(c, q, start), es).current.value, Some(StateBefore(q, start).data));
    CancelReverts(c, q, start, es, silent, may);
  }

  lemma SettledSpared(c: R.Config, q: Query, e: R.Event, id: int)
    requires Settled(q, id) && !e.Start?
    ensures var t := AdvanceCurrent(c, q, e);
            && Settled(t, id)
            && t.machines[id].status == q.machines[id].status
            && t.awaiting == q.awaiting && t.next == q.next
  {
    if q.current.Some? && q.current.value in q.machines {
      AdvanceKeeps(c, q, q.current.value, e);
    }
  }

  /** An old continuation makes the query idle under the fetch in flight, and the next fetch flies beside it. */
  lemma FliesBeside(c: R.Config, q: Query, a: int, b: int)
    requires Noisy(q, a) && InFlight(q, b) && b != q.next
    ensures var t := Step(c, Step(c, q, Finish(a)), StartFetch(false, None, None, true, true));
            InFlight(t, b) && InFlight(t, q.next)
  {
    var t := Step(c, q, Finish(a));
    assert t.state.fetchStatus.Idle? && t.machines == q.machines && t.next == q.next;
    assert !Busy(t) && !Joins(t, false);
    BeginFlies(c, t, None, true);
  }

  /** What an overlapping start does: the old fetch stays as it is and the new one is in flight. */
  lemma OverlapFlies(c: R.Config, q: Query, e: Event, a: int)
    requires Starts(q, e) && Noisy(q, a) && a < q.next
    ensures var t := Step(c, q, e); Noisy(t, a) && InFlight(t, q.next) && t.next == q.next + 1
  {
    var base := WithInitial(Cleared(c, q, e.cancelRefetch, e.may), e.initialData);
    SettledSpared(c, q, R.Cancel(R.Cancelled(false, true), e.may), a);
    BeginFlies(c, base, e.meta, e.canFetch);
  }

  /** The condition is exact: any start that overlaps leads, by two more events, to two fetches in flight. */
  lemma OverlapMeansTwo(c: R.Config, q: Query, e: Event) returns (a: int)
    requires Safe(q) && Overlaps(q, e)
    ensures Noisy(q, a)
    ensures !AtMostOneInFlight(Step(c, Step(c, Step(c, q, e), Finish(a)), StartFetch(false, None, None, true, true)))
  {
    a :| Noisy(q, a);
    OverlapFlies(c, q, e, a);
    FliesBeside(c, Step(c, q, e), a, q.next);
  }

  lemma NewIsSafe(initialData: Option<int>)
    ensures Safe(New(initialData)) && Shapes(New(initialData))
  {
  }

  const START := StartFetch(false, None, None, true, true)
  const FAILURE := Machine(0, R.Fails(R.Thrown(7), true))

  /** The first fetch has failed, and its continuation has not run. */
  lemma FirstFails(c: R.Config) returns (q: Query)
    requires c.retry == R.UpTo(0)
    ensures q == Step(c, Step(c, New(None), START), FAILURE) && Safe(q) && Overlaps(q, START)
  {
    var q0 := New(None);
    var q1 := Step(c, q0, START);
    BeginFlies(c, q0, None, true);
    BeginIs(c, q0, None, true);
    NewIsSafe(None);
    StepKeepsSafe(c, q0, START);
    StepKeepsSafe(c, q1, FAILURE);
    q := Step(c, q1, FAILURE);
    AdvanceKeeps(c, q1, 0, FAILURE.e);
    assert Noisy(q, 0);
  }

  /** And it does happen: a fetch fails, is fetched again before its continuation has run, and again after. */
  lemma TwoInFlight(c: R.Config) returns (es: seq<Event>)
    requires c.retry == R.UpTo(0)
    ensures !AtMostOneInFlight(Exec(c, New(None), es))
  {
    var q := FirstFails(c);
    var a := OverlapMeansTwo(c, q, START);
    es := [START, FAILURE, START, Finish(a), START];
    assert es[1..] == [FAILURE, START, Finish(a), START];
    assert es[1..][1..] == [START, Finish(a), START];
    ExecThree(c, q, START, Finish(a), START);
  }

  lemma ExecThree(c: R.Config, q: Query, e1: Event, e2: Event, e3: Event)
    ensures Exec(c, q, [e1, e2, e3]) == Step(c, Step(c, Step(c, q, e1), e2), e3)
  {
    assert [e1, e2, e3][1..] == [e2, e3] && [e2, e3][1..] == [e3] && [e3][1..] == [];
    assert Exec(c, Step(c, Step(c, q, e1), e2), [e3]) == Step(c, Step(c, Step(c, q, e1), e2), e3);
  }

  // --- the query in place -----------------------------------------------------------------------------

  class CachedQuery {
    const config: R.Config
    var state: State
    var revertState: Option<State>
    var initialState: State
    var retryer: Option<int>
    var machines: map<int, R.Machine>
    var awaiting: set<int>
    var next: int

    ghost function View(): Query
      reads this
    {
      Query(state, revertState, initialState, retryer, machines, awaiting, next)
    }

    constructor (config: R.Config, initialData: Option<int>)
      ensures this.config == config && View() == New(initialData)
    {
      this.config := config;
      state, revertState, initialState := InitialState(initialData), None, InitialState(initialData);
      retryer, machines, awaiting, next := None, map[], {}, 0;
    }

    method DispatchAction(a: Action)
      modifies this`state, this`revertState
      ensures View() == Dispatch(old(View()), a)
    {
      state := Reduce(state, a);
      if a.Succeed? {
        revertState := if a.manual then Some(state) else None;
      }
    }

    /** The callbacks given to a fetch's machine. */
    method Callback(m: R.Machine, o: R.Output)
      modifies this`state, this`revertState
      ensures View() == Deliver(old(View()), m, o)
    {
      match o
      case Failed(count) => DispatchAction(Action.Failed(count, m.lastError));
      case Paused => DispatchAction(Pause);
      case Continued => DispatchAction(Action.Continue);
      case CancelSeen =>
        if HasRevert(m) {
          var target := if revertState.Some? then revertState.value else state;
          DispatchAction(Restore(target.(fetchStatus := Idle)));
        }
      case Called =>
      case Settled(_) =>
    }

    method Drive(id: int, e: R.Event)
      requires id in machines
      modifies this`state, this`revertState, this`machines
      ensures View() == Advance(config, old(View()), id, e)
    {
      var before := machines[id];
      var m := R.Step(config, before, e);
      machines := machines[id := m];
      var outputs := Since(before, m);
      var i := 0;
      while i < |outputs|
        invariant 0 <= i <= |outputs|
        invariant DeliverAll(View(), m, outputs[i..]) == Advance(config, old(View()), id, e)
      {
        assert outputs[i..][0] == outputs[i] && outputs[i..][1..] == outputs[i + 1..];
        Callback(m, outputs[i]);
        i := i + 1;
      }
    }

    method DriveCurrent(e: R.Event)
      modifies this`state, this`revertState, this`machines
      ensures View() == AdvanceCurrent(config, old(View()), e)
    {
      if retryer.Some? && retryer.value in machines {
        Drive(retryer.value, e);
      }
    }

    method BeginFetch(meta: Option<int>, canFetch: bool)
      modifies this
      ensures View() == Begin(config, old(View()), meta, canFetch)
    {
      revertState := Some(state);
      if state.fetchStatus.Idle? || meta.None? || state.fetchMeta != meta {
        DispatchAction(Action.Fetch(meta, canFetch));
      }
      var id := next;
      machines, retryer, awaiting, next := machines[id := R.NEW], Some(id), awaiting + {id}, next + 1;
      Drive(id, R.Start(canFetch));
    }

    method TakeUpAndBegin(initialData: Option<int>, meta: Option<int>, canFetch: bool)
      modifies this
      ensures View() == Begin(config, WithInitial(old(View()), initialData), meta, canFetch)
    {
      UseOptions(initialData);
      BeginFetch(meta, canFetch);
    }

    method IsBusy() returns (busy: bool)
      ensures busy == Busy(View())
    {
      var rejected := retryer.Some? && retryer.value in machines && machines[retryer.value].status.Rejected?;
      busy := !state.fetchStatus.Idle? && !rejected;
    }

    method FetchData(cancelRefetch: bool, initialData: Option<int>, meta: Option<int>, canFetch: bool, may: bool)
      modifies this
      ensures View() == Step(config, old(View()), StartFetch(cancelRefetch, initialData, meta, canFetch, may))
    {
      var busy := IsBusy();
      if busy && state.data.Some? && cancelRefetch {
        DriveCurrent(R.Cancel(R.Cancelled(false, true), may));
      } else if busy && retryer.Some? {
        DriveCurrent(R.ContinueRetry);
        return;
      }
      TakeUpAndBegin(initialData, meta, canFetch);
    }

    /** What follows the promise of a fetch. */
    method OnSettled(id: int)
      requires id in awaiting && id in machines && !machines[id].status.Pending?
      modifies this`state, this`revertState, this`awaiting
      ensures View() == Step(config, old(View()), Finish(id))
    {
      awaiting := awaiting - {id};
      match machines[id].status {
        case Resolved(data) => DispatchAction(if data.Some? then Succeed(data.value, false) else Fail(R.Thrown(-1)));
        case Rejected(error) =>
          if !error.Cancelled? || (!error.silent && !error.revert) {
            DispatchAction(Fail(error));
          }
      }
    }

    method CancelFetch(revert: bool, silent: bool, may: bool)
      modifies this
      ensures View() == Step(config, old(View()), Cancel(revert, silent, may))
    {
      DriveCurrent(R.Cancel(R.Cancelled(revert, silent), may));
    }

    method SetQueryData(data: int)
      modifies this`state, this`revertState
      ensures View() == Step(config, old(View()), SetData(data))
    {
      DispatchAction(Succeed(data, true));
    }

    method UseOptions(initialData: Option<int>)
      modifies this`state, this`revertState, this`initialState
      ensures View() == WithInitial(old(View()), initialData)
    {
      if state.data.None? && initialData.Some? {
        DispatchAction(Initial(initialData.value));
        initialState := InitialState(initialData);
      }
    }

    method ResetState(may: bool)
      modifies this
      ensures View() == Step(config, old(View()), Reset(may))
    {
      DriveCurrent(R.Cancel(R.Cancelled(false, true), may));
      DispatchAction(Restore(initialState));
    }
  }
}
