/**
 The scoped mutation queue of the query client.

 A mutation submitted with a scope id may call its function only while it is the first pending
 mutation of that scope.  JavaScript runs one callback at a time, so every stretch of code between
 two awaits is one event here; promises, timers and window events decide which event comes next.
 `Step` says what each event does, `Exec` runs a list of them, and class `MutationCache` performs
 the same steps by updating its fields.
 */
module MutationQueue {
  import opened Options

  type Id = int

  datatype NetworkMode = Online | Always | OfflineFirst

  /** Where `execute` and the retryer it created are suspended. */
  datatype Stage =
    | Idle                // built, `execute` not entered yet
    | Preparing           // pending, awaiting the onMutate callbacks
    | WaitingToStart      // paused before the first call of the function
    | Resuming            // the pause was resolved, its continuation is queued
    | AboutToRun          // "continue" was dispatched, the call is queued
    | InFlight            // the function was called and has not settled
    | Sleeping            // the retry delay
    | WaitingToRetry      // paused before another call
    | Settling(ran: bool) // awaiting the onSuccess/onError/onSettled callbacks
    | Succeeded
    | Failed

  datatype Mutation = Mutation(scope: Option<string>, mode: NetworkMode, stage: Stage, isPaused: bool, failureCount: nat) {
    predicate Pending() { !stage.Idle? && !stage.Succeeded? && !stage.Failed? }

    /** Paused with a continue function registered. */
    predicate Waiting() { stage.WaitingToStart? || stage.WaitingToRetry? }

    /** Let past the scope check and not settled since. */
    predicate Admitted() {
      match stage
      case Resuming | AboutToRun | InFlight | Sleeping | WaitingToRetry => true
      case Settling(ran) => ran
      case _ => false
    }

    /** The function has not been called yet, and may still be. */
    predicate Unstarted() {
      match stage
      case Idle | Preparing | WaitingToStart => true
      case Resuming | AboutToRun => failureCount == 0
      case _ => false
    }
  }

  /** One entry of the log of first calls. */
  datatype Start = Start(scope: Option<string>, id: Id)

  datatype State = State(
    mutations: map<Id, Mutation>,
    scopes: map<string, seq<Id>>,
    lastId: nat,
    focused: bool,
    online: bool,
    starts: seq<Start>)

  function Initial(focused: bool, online: bool): State {
    State(map[], map[], 0, focused, online, [])
  }

  // --- the cache and the retryer's guards ---------------------------------

  function FirstPending(list: seq<Id>, ms: map<Id, Mutation>): Option<Id> {
    if list == [] then None
    else if list[0] in ms && ms[list[0]].Pending() then Some(list[0])
    else FirstPending(list[1..], ms)
  }

  function FirstPaused(list: seq<Id>, ms: map<Id, Mutation>, except: Id): Option<Id> {
    if list == [] then None
    else if list[0] != except && list[0] in ms && ms[list[0]].isPaused then Some(list[0])
    else FirstPaused(list[1..], ms, except)
  }

  predicate CanRun(s: State, id: Id)
    requires id in s.mutations
  {
    match s.mutations[id].scope
    case None => true
    case Some(k) =>
      k in s.scopes ==>
        var first := FirstPending(s.scopes[k], s.mutations);
        first.None? || first.value == id
  }

  predicate CanStart(s: State, id: Id)
    requires id in s.mutations
  {
    (s.mutations[id].mode.Online? ==> s.online) && CanRun(s, id)
  }

  predicate CanContinue(s: State, id: Id)
    requires id in s.mutations
  {
    && s.focused
    && (s.mutations[id].mode.Always? || s.online)
    && CanRun(s, id)
  }

  function Put(s: State, id: Id, m: Mutation): State {
    s.(mutations := s.mutations[id := m])
  }

  function AddToScope(scopes: map<string, seq<Id>>, scope: Option<string>, id: Id): map<string, seq<Id>> {
    match scope
    case None => scopes
    case Some(k) => scopes[k := if k in scopes then scopes[k] + [id] else [id]]
  }

  function Without(list: seq<Id>, id: Id): seq<Id> {
    if list == [] then [] else if list[0] == id then list[1..] else [list[0]] + Without(list[1..], id)
  }

  function RemoveFromScope(scopes: map<string, seq<Id>>, scope: Option<string>, id: Id): map<string, seq<Id>> {
    match scope
    case None => scopes
    case Some(k) =>
      if k !in scopes then scopes
      else if |scopes[k]| > 1 then scopes[k := Without(scopes[k], id)]
      else if scopes[k] == [id] then scopes - {k}
      else scopes
  }

  // --- what each event does ------------------------------------------------

  datatype Event =
    | Submit(scope: Option<string>, mode: NetworkMode)
    | Prepared(id: Id, ok: bool)               // the onMutate callbacks settled
    | Continued(id: Id)                        // first microtask after a resolved pause
    | Run(id: Id)                              // second microtask: the call
    | FnSettled(id: Id, ok: bool, retry: bool) // `retry`: what the retry option decides on a failure
    | Wake(id: Id)                             // the retry delay is over
    | Finish(id: Id, ok: bool)                 // the final callbacks settled
    | Remove(id: Id)                           // garbage collection of a settled mutation
    | Focus(now: bool)
    | Network(now: bool)
    | ResumePaused

  function Submitted(s: State, scope: Option<string>, mode: NetworkMode): State {
    var id := s.lastId + 1;
    var built := Mutation(scope, mode, Idle, false, 0);
    var added := Put(s, id, built).(lastId := id, scopes := AddToScope(s.scopes, scope, id));
    Put(added, id, built.(stage := Preparing, isPaused := !CanStart(added, id)))
  }

  function Launch(s: State, id: Id): State
    requires id in s.mutations
  {
    var m := s.mutations[id];
    Put(s, id, m.(stage := InFlight)).(starts := if m.failureCount == 0 then s.starts + [Start(m.scope, id)] else s.starts)
  }

  function Continue(s: State, id: Id): State
    requires id in s.mutations
  {
    var m := s.mutations[id];
    if m.Waiting() && CanContinue(s, id) then Put(s, id, m.(stage := Resuming)) else s
  }

  function RunNext(s: State, id: Id): State
    requires id in s.mutations
  {
    match s.mutations[id].scope
    case None => s
    case Some(k) =>
      if k !in s.scopes then s
      else
        match FirstPaused(s.scopes[k], s.mutations, id)
        case None => s
        case Some(next) => if next in s.mutations then Continue(s, next) else s
  }

  function Settled(m: Mutation, ok: bool): Mutation {
    if ok then m.(stage := Succeeded, isPaused := false, failureCount := 0)
    else m.(stage := Failed, isPaused := false, failureCount := m.failureCount + 1)
  }

  function Finished(s: State, id: Id, ok: bool): State
    requires id in s.mutations
  {
    RunNext(Put(s, id, Settled(s.mutations[id], ok)), id)
  }

  function ResumeAll(s: State): State {
    if !s.online then s
    else s.(mutations := map id | id in s.mutations ::
              if s.mutations[id].isPaused then Continue(s, id).mutations[id] else s.mutations[id])
  }

  predicate Enabled(s: State, e: Event) {
    match e
    case Submit(_, _) => true
    case Prepared(id, _) => id in s.mutations && s.mutations[id].stage.Preparing?
    case Continued(id) => id in s.mutations && s.mutations[id].stage.Resuming?
    case Run(id) => id in s.mutations && s.mutations[id].stage.AboutToRun?
    case FnSettled(id, _, _) => id in s.mutations && s.mutations[id].stage.InFlight?
    case Wake(id) => id in s.mutations && s.mutations[id].stage.Sleeping?
    case Finish(id, _) => id in s.mutations && s.mutations[id].stage.Settling?
    case Remove(id) => id in s.mutations && !s.mutations[id].Pending()
    case Focus(_) => true
    case Network(_) => true
    case ResumePaused => true
  }

  /** An event that cannot happen in `s` leaves it unchanged. */
  function Step(s: State, e: Event): State {
    if !Enabled(s, e) then s else
    match e
    case Submit(scope, mode) => Submitted(s, scope, mode)
    case Prepared(id, ok) =>
      var m := s.mutations[id];
      if !ok then Put(s, id, m.(stage := Settling(false)))
      else if CanStart(s, id) then Launch(s, id)
      else Put(s, id, m.(stage := WaitingToStart, isPaused := true))
    case Continued(id) => Put(s, id, s.mutations[id].(stage := AboutToRun, isPaused := false))
    case Run(id) => Launch(s, id)
    case FnSettled(id, ok, retry) =>
      var m := s.mutations[id];
      if ok || !retry then Put(s, id, m.(stage := Settling(true)))
      else Put(s, id, m.(stage := Sleeping, failureCount := m.failureCount + 1))
    case Wake(id) =>
      var m := s.mutations[id];
      if CanContinue(s, id) then Put(s, id, m.(stage := AboutToRun))
      else Put(s, id, m.(stage := WaitingToRetry, isPaused := true))
    case Finish(id, ok) => Finished(s, id, ok)
    case Remove(id) =>
      s.(mutations := s.mutations - {id}, scopes := RemoveFromScope(s.scopes, s.mutations[id].scope, id))
    case Focus(now) =>
      var moved := s.(focused := now);
      if now then ResumeAll(moved) else moved
    case Network(now) =>
      var moved := s.(online := now);
      if now && !s.online then ResumeAll(moved) else moved
    case ResumePaused => ResumeAll(s)
  }

  function Exec(s: State, es: seq<Event>): State
    decreases |es|
  {
    if es == [] then s else Step(Exec(s, es[..|es| - 1]), es[|es| - 1])
  }

  // --- the invariant ---------------------------------------------------------

  ghost predicate Increasing(list: seq<Id>) {
    forall i, j :: 0 <= i < j < |list| ==> list[i] < list[j]
  }

  /** A scope's list: its mutations in submission order. */
  ghost predicate ListOf(k: string, list: seq<Id>, ms: map<Id, Mutation>) {
    list != [] && Increasing(list) && forall id :: id in list ==> id in ms && ms[id].scope == Some(k)
  }

  predicate Listed(scopes: map<string, seq<Id>>, scope: Option<string>, id: Id) {
    scope.Some? ==> scope.value in scopes && id in scopes[scope.value]
  }

  ghost predicate ListsAgree(scopes: map<string, seq<Id>>, ms: map<Id, Mutation>) {
    && (forall k :: k in scopes ==> ListOf(k, scopes[k], ms))
    && (forall id :: id in ms ==> Listed(scopes, ms[id].scope, id))
  }

  predicate SameScope(ms: map<Id, Mutation>, i: Id, j: Id)
    requires i in ms && j in ms
  {
    ms[i].scope.Some? && ms[i].scope == ms[j].scope
  }

  /** No earlier mutation of the scope is pending. */
  ghost predicate Head(ms: map<Id, Mutation>, id: Id)
    requires id in ms
  {
    forall i :: i in ms && i < id && SameScope(ms, i, id) ==> !ms[i].Pending()
  }

  /** What holds of one mutation; `awake` says that the window is focused and online. */
  predicate Sound(m: Mutation, head: bool, awake: bool) {
    && !m.stage.Idle?
    && (m.Admitted() ==> head)
    && (m.Pending() && !head ==> m.isPaused)
    && (m.Waiting() ==> m.isPaused)
    && (m.Waiting() && head ==> !awake)
    && (!m.Pending() ==> !m.isPaused)
    && (m.stage.Sleeping? || m.stage.WaitingToRetry? ==> m.failureCount > 0)
  }

  ghost predicate StagesAgree(ms: map<Id, Mutation>, awake: bool) {
    forall id {:trigger Head(ms, id)} :: id in ms ==> Sound(ms[id], Head(ms, id), awake)
  }

  /** Of one scope, the logged mutations come no later than a pending one. */
  ghost predicate LoggedBefore(starts: seq<Start>, id: Id, m: Mutation) {
    m.Pending() && m.scope.Some? ==>
      forall i :: 0 <= i < |starts| && starts[i].scope == m.scope ==>
        starts[i].id <= id && (m.Unstarted() ==> starts[i].id < id)
  }

  ghost predicate LogInOrder(starts: seq<Start>) {
    forall i, j :: 0 <= i < j < |starts| && starts[i].scope.Some? && starts[i].scope == starts[j].scope ==>
      starts[i].id < starts[j].id
  }

  ghost predicate LogAgrees(starts: seq<Start>, ms: map<Id, Mutation>) {
    LogInOrder(starts) && forall id :: id in ms ==> LoggedBefore(starts, id, ms[id])
  }

  ghost predicate Bounded(s: State) {
    && (forall id :: id in s.mutations ==> 0 < id <= s.lastId)
    && (forall i :: 0 <= i < |s.starts| ==> s.starts[i].id <= s.lastId)
  }

  predicate Awake(s: State) { s.focused && s.online }

  ghost predicate Inv(s: State) {
    && Bounded(s)
    && ListsAgree(s.scopes, s.mutations)
    && StagesAgree(s.mutations, Awake(s))
    && LogAgrees(s.starts, s.mutations)
  }

  // --- lookups in a scope's list ------------------------------------------

  lemma {:induction false} FirstPendingFinds(list: seq<Id>, ms: map<Id, Mutation>)
    requires Increasing(list)
    ensures FirstPending(list, ms).None? ==> forall id :: id in list && id in ms ==> !ms[id].Pending()
    ensures FirstPending(list, ms).Some? ==>
              var first := FirstPending(list, ms).value;
              && first in list && first in ms && ms[first].Pending()
              && (forall id :: id in list && id in ms && id < first ==> !ms[id].Pending())
  {
    if list != [] && !(list[0] in ms && ms[list[0]].Pending()) {
      FirstPendingFinds(list[1..], ms);
      assert list == [list[0]] + list[1..];
    }
  }

  lemma {:induction false} FirstPausedFinds(list: seq<Id>, ms: map<Id, Mutation>, except: Id)
    requires Increasing(list)
    ensures FirstPaused(list, ms, except).None? ==>
              forall id :: id in list && id in ms && id != except ==> !ms[id].isPaused
    ensures FirstPaused(list, ms, except).Some? ==>
              var first := FirstPaused(list, ms, except).value;
              && first in list && first in ms && first != except && ms[first].isPaused
              && (forall id :: id in list && id in ms && id != except && id < first ==> !ms[id].isPaused)
  {
    if list != [] && !(list[0] != except && list[0] in ms && ms[list[0]].isPaused) {
      FirstPausedFinds(list[1..], ms, except);
      assert list == [list[0]] + list[1..];
    }
  }

  /** The scope check admits exactly the first pending mutation of the scope. */
  lemma CanRunIffHead(s: State, id: Id)
    requires ListsAgree(s.scopes, s.mutations) && id in s.mutations
    requires s.mutations[id].Pending() || forall i :: i in s.mutations && SameScope(s.mutations, i, id) ==> i <= id
    ensures CanRun(s, id) <==> Head(s.mutations, id)
  {
    var ms := s.mutations;
    if ms[id].scope.Some? {
      var k := ms[id].scope.value;
      var list := s.scopes[k];
      assert ListOf(k, list, ms) && Listed(s.scopes, ms[id].scope, id);
      FirstPendingFinds(list, ms);
      forall i | i in ms && SameScope(ms, i, id) ensures i in list {
        assert Listed(s.scopes, ms[i].scope, i);
      }
      if FirstPending(list, ms).Some? {
        assert SameScope(ms, FirstPending(list, ms).value, id);
      }
    }
  }

  // --- one mutation moves on -----------------------------------------------

  /** A pending mutation stays pending: no list and no head changes. */
  lemma PendingKeepsShape(scopes: map<string, seq<Id>>, ms: map<Id, Mutation>, ms': map<Id, Mutation>)
    requires ms'.Keys == ms.Keys
    requires forall i :: i in ms ==> ms'[i].scope == ms[i].scope && ms'[i].Pending() == ms[i].Pending()
    ensures forall i :: i in ms ==> (Head(ms', i) <==> Head(ms, i))
    ensures ListsAgree(scopes, ms) ==> ListsAgree(scopes, ms')
  {
    forall i | i in ms
      ensures Head(ms', i) <==> Head(ms, i)
    {
      assert forall j :: j in ms ==> (SameScope(ms', j, i) <==> SameScope(ms, j, i));
    }
    if ListsAgree(scopes, ms) {
      forall k | k in scopes ensures ListOf(k, scopes[k], ms') {
        assert ListOf(k, scopes[k], ms);
      }
      forall i | i in ms' ensures Listed(scopes, ms'[i].scope, i) {
        assert Listed(scopes, ms[i].scope, i);
      }
    }
  }

  ghost predicate Others(ms: map<Id, Mutation>, id: Id, awake: bool) {
    forall i {:trigger Head(ms, i)} :: i in ms && i != id ==> Sound(ms[i], Head(ms, i), awake)
  }

  lemma PutKeepsStages(ms: map<Id, Mutation>, id: Id, m: Mutation, awake: bool)
    requires id in ms && Others(ms, id, awake) && Sound(m, Head(ms, id), awake)
    requires m.scope == ms[id].scope && m.Pending() == ms[id].Pending()
    ensures StagesAgree(ms[id := m], awake)
  {
    var ms' := ms[id := m];
    PendingKeepsShape(map[], ms, ms');
    forall i | i in ms'
      ensures Sound(ms'[i], Head(ms', i), awake)
    {
      if i != id { assert Sound(ms[i], Head(ms, i), awake); }
    }
  }

  lemma PutKeepsLog(starts: seq<Start>, ms: map<Id, Mutation>, id: Id, m: Mutation)
    requires LogAgrees(starts, ms) && id in ms && m.scope == ms[id].scope
    requires m.Pending() ==> ms[id].Pending()
    requires m.Unstarted() ==> ms[id].Unstarted()
    ensures LogAgrees(starts, ms[id := m])
  {
    var ms' := ms[id := m];
    forall i | i in ms'
      ensures LoggedBefore(starts, i, ms'[i])
    {
      assert LoggedBefore(starts, i, ms[i]);
    }
  }

  /** A pending mutation moves on; it may have been the only unsound one. */
  lemma PutPending(s: State, id: Id, m: Mutation)
    requires Bounded(s) && ListsAgree(s.scopes, s.mutations) && LogAgrees(s.starts, s.mutations)
    requires id in s.mutations && s.mutations[id].Pending() && Others(s.mutations, id, Awake(s))
    requires m.Pending() && m.scope == s.mutations[id].scope
    requires Sound(m, Head(s.mutations, id), Awake(s))
    requires m.Unstarted() ==> s.mutations[id].Unstarted()
    ensures Inv(Put(s, id, m))
  {
    PendingKeepsShape(s.scopes, s.mutations, s.mutations[id := m]);
    PutKeepsStages(s.mutations, id, m, Awake(s));
    PutKeepsLog(s.starts, s.mutations, id, m);
  }

  lemma LogExtends(starts: seq<Start>, ms: map<Id, Mutation>, ms': map<Id, Mutation>, id: Id)
    requires LogAgrees(starts, ms) && id in ms && ms[id].Pending() && ms[id].Unstarted() && Head(ms, id)
    requires ms' == ms[id := ms[id].(stage := InFlight)]
    ensures LogAgrees(starts + [Start(ms[id].scope, id)], ms')
  {
    var longer := starts + [Start(ms[id].scope, id)];
    assert LoggedBefore(starts, id, ms[id]);
    forall j | j in ms'
      ensures LoggedBefore(longer, j, ms'[j])
    {
      assert LoggedBefore(starts, j, ms[j]);
      if j < id && SameScope(ms, j, id) {
        assert !ms[j].Pending();
      }
    }
  }

  lemma LaunchKeeps(s: State, id: Id)
    requires Inv(s) && id in s.mutations && s.mutations[id].Pending() && Head(s.mutations, id)
    requires s.mutations[id].Unstarted() || s.mutations[id].failureCount > 0
    ensures Inv(Launch(s, id))
  {
    var m := s.mutations[id].(stage := InFlight);
    PutPending(s, id, m);
    if m.failureCount == 0 {
      LogExtends(s.starts, s.mutations, s.mutations[id := m], id);
    }
  }

  lemma ContinueKeeps(s: State, id: Id)
    requires Bounded(s) && ListsAgree(s.scopes, s.mutations) && LogAgrees(s.starts, s.mutations)
    requires id in s.mutations && Others(s.mutations, id, Awake(s))
    requires Sound(s.mutations[id], Head(s.mutations, id), false)
    ensures Inv(Continue(s, id))
  {
    var m := s.mutations[id];
    if m.Waiting() {
      CanRunIffHead(s, id);
      if CanContinue(s, id) {
        PutPending(s, id, m.(stage := Resuming));
      }
    }
  }

  // --- a submission ----------------------------------------------------------

  lemma AddKeepsLists(scopes: map<string, seq<Id>>, ms: map<Id, Mutation>, id: Id, m: Mutation)
    requires ListsAgree(scopes, ms) && forall i :: i in ms ==> i < id
    ensures ListsAgree(AddToScope(scopes, m.scope, id), ms[id := m])
  {
    var scopes' := AddToScope(scopes, m.scope, id);
    var ms' := ms[id := m];
    forall k | k in scopes'
      ensures ListOf(k, scopes'[k], ms')
    {
      if k in scopes {
        assert ListOf(k, scopes[k], ms);
        assert forall i :: 0 <= i < |scopes[k]| ==> scopes[k][i] in scopes[k];
      }
    }
    forall i | i in ms'
      ensures Listed(scopes', ms'[i].scope, i)
    {
      if i != id {
        assert Listed(scopes, ms[i].scope, i);
      }
    }
  }

  /** A new mutation is the last of its scope, so it is nobody's predecessor. */
  lemma AddKeepsHeads(ms: map<Id, Mutation>, id: Id, m: Mutation)
    requires forall i :: i in ms ==> i < id
    ensures forall i :: i in ms ==> (Head(ms[id := m], i) <==> Head(ms, i))
  {
    var ms' := ms[id := m];
    forall i | i in ms
      ensures Head(ms', i) <==> Head(ms, i)
    {
      assert forall j :: j in ms ==> (SameScope(ms', j, i) <==> SameScope(ms, j, i));
    }
  }

  lemma AddKeepsStages(ms: map<Id, Mutation>, id: Id, m: Mutation, awake: bool)
    requires StagesAgree(ms, awake) && forall i :: i in ms ==> i < id
    requires m.stage.Preparing? && (m.isPaused || Head(ms[id := m], id))
    ensures StagesAgree(ms[id := m], awake)
  {
    var ms' := ms[id := m];
    AddKeepsHeads(ms, id, m);
    forall i | i in ms'
      ensures Sound(ms'[i], Head(ms', i), awake)
    {
      if i != id { assert Sound(ms[i], Head(ms, i), awake); }
    }
  }

  lemma AddKeepsLog(starts: seq<Start>, ms: map<Id, Mutation>, id: Id, m: Mutation)
    requires LogAgrees(starts, ms) && forall i :: 0 <= i < |starts| ==> starts[i].id < id
    ensures LogAgrees(starts, ms[id := m])
  {
    var ms' := ms[id := m];
    forall i | i in ms'
      ensures LoggedBefore(starts, i, ms'[i])
    {
      if i != id { assert LoggedBefore(starts, i, ms[i]); }
    }
  }

  /** The new mutation is marked paused unless it is the only pending one of its scope. */
  lemma SubmitAdds(s: State, scope: Option<string>, mode: NetworkMode) returns (m: Mutation)
    requires Bounded(s) && ListsAgree(s.scopes, s.mutations)
    ensures var id := s.lastId + 1;
            && m.stage.Preparing? && m.scope == scope
            && (m.isPaused || Head(s.mutations[id := m], id))
            && Submitted(s, scope, mode) ==
               s.(mutations := s.mutations[id := m], scopes := AddToScope(s.scopes, scope, id), lastId := id)
  {
    var id := s.lastId + 1;
    var built := Mutation(scope, mode, Idle, false, 0);
    var added := Put(s, id, built).(lastId := id, scopes := AddToScope(s.scopes, scope, id));
    m := built.(stage := Preparing, isPaused := !CanStart(added, id));
    AddKeepsLists(s.scopes, s.mutations, id, built);
    CanRunIffHead(added, id);
    var ms' := s.mutations[id := m];
    assert Put(added, id, m).mutations == ms';
    LastHead(s.mutations, id, built, m);
  }

  /** Whether a mutation is the head does not depend on its own stage. */
  lemma LastHead(ms: map<Id, Mutation>, id: Id, m: Mutation, m': Mutation)
    requires m'.scope == m.scope
    ensures Head(ms[id := m'], id) <==> Head(ms[id := m], id)
  {
    var a, b := ms[id := m], ms[id := m'];
    assert forall j :: j in a ==> (SameScope(b, j, id) <==> SameScope(a, j, id));
  }

  lemma SubmitKeeps(s: State, scope: Option<string>, mode: NetworkMode)
    requires Inv(s)
    ensures Inv(Submitted(s, scope, mode))
  {
    var id := s.lastId + 1;
    var m := SubmitAdds(s, scope, mode);
    AddKeepsLists(s.scopes, s.mutations, id, m);
    AddKeepsStages(s.mutations, id, m, Awake(s));
    AddKeepsLog(s.starts, s.mutations, id, m);
  }

  // --- a mutation settles ----------------------------------------------------

  /** Settling the head wakes exactly the mutation that becomes the head. */
  lemma RunNextKeeps(s: State, id: Id)
    requires Bounded(s) && ListsAgree(s.scopes, s.mutations) && LogAgrees(s.starts, s.mutations)
    requires id in s.mutations && !s.mutations[id].Pending() && StagesAgree(s.mutations, false)
    requires forall j {:trigger Head(s.mutations, j)} :: j in s.mutations && !Sound(s.mutations[j], Head(s.mutations, j), Awake(s)) ==> SameScope(s.mutations, id, j)
    ensures Inv(RunNext(s, id))
  {
    var ms := s.mutations;
    if ms[id].scope.Some? {
      var k := ms[id].scope.value;
      assert Listed(s.scopes, ms[id].scope, id) && ListOf(k, s.scopes[k], ms);
      var found := FirstPaused(s.scopes[k], ms, id);
      FirstPausedFinds(s.scopes[k], ms, id);
      forall j | j in ms && !Sound(ms[j], Head(ms, j), Awake(s))
        ensures found == Some(j)
      {
        assert Sound(ms[j], Head(ms, j), false) && Listed(s.scopes, ms[j].scope, j);
        assert SameScope(ms, found.value, j) && Sound(ms[found.value], Head(ms, found.value), false);
      }
      if found.Some? {
        assert Sound(ms[found.value], Head(ms, found.value), false);
        ContinueKeeps(s, found.value);
      }
    }
  }

  /** Once `id` has settled, heads stay heads, and a new head is of its scope. */
  lemma SettlingMovesHeads(ms: map<Id, Mutation>, id: Id, m: Mutation)
    requires id in ms && m.scope == ms[id].scope && !m.Pending()
    ensures forall j :: j in ms && Head(ms, j) ==> Head(ms[id := m], j)
    ensures forall j :: j in ms && !Head(ms, j) && Head(ms[id := m], j) ==> SameScope(ms, id, j)
  {
    var ms' := ms[id := m];
    forall j | j in ms
      ensures Head(ms, j) ==> Head(ms', j)
      ensures !Head(ms, j) && Head(ms', j) ==> SameScope(ms, id, j)
    {
      assert forall i :: i in ms ==> (SameScope(ms', i, j) <==> SameScope(ms, i, j));
    }
  }

  lemma SettlingKeepsLists(scopes: map<string, seq<Id>>, ms: map<Id, Mutation>, id: Id, m: Mutation)
    requires id in ms && m.scope == ms[id].scope && ListsAgree(scopes, ms)
    ensures ListsAgree(scopes, ms[id := m])
  {
    var ms' := ms[id := m];
    forall k | k in scopes ensures ListOf(k, scopes[k], ms') {
      assert ListOf(k, scopes[k], ms);
    }
    forall i | i in ms' ensures Listed(scopes, ms'[i].scope, i) {
      assert Listed(scopes, ms[i].scope, i);
    }
  }

  lemma SettlingKeepsStages(ms: map<Id, Mutation>, id: Id, m: Mutation, awake: bool)
    requires StagesAgree(ms, awake) && id in ms && m.scope == ms[id].scope && !m.Pending() && Sound(m, false, true)
    ensures var ms' := ms[id := m];
            && StagesAgree(ms', false)
            && forall j {:trigger Head(ms', j)} :: j in ms' && !Sound(ms'[j], Head(ms', j), awake) ==> SameScope(ms', id, j)
  {
    var ms' := ms[id := m];
    SettlingMovesHeads(ms, id, m);
    forall j | j in ms'
      ensures Sound(ms'[j], Head(ms', j), false)
      ensures SameScope(ms', id, j) || Sound(ms'[j], Head(ms', j), awake)
    {
      if j != id { assert Sound(ms[j], Head(ms, j), awake); }
    }
  }

  lemma FinishKeeps(s: State, id: Id, ok: bool)
    requires Inv(s) && id in s.mutations && s.mutations[id].stage.Settling?
    ensures Inv(Finished(s, id, ok))
  {
    var ms := s.mutations;
    var m := Settled(ms[id], ok);
    SettlingKeepsStages(ms, id, m, Awake(s));
    SettlingKeepsLists(s.scopes, ms, id, m);
    PutKeepsLog(s.starts, ms, id, m);
    RunNextKeeps(Put(s, id, m), id);
  }

  // --- a settled mutation is collected ---------------------------------------

  lemma {:induction false} WithoutRemoves(list: seq<Id>, id: Id)
    requires Increasing(list) && id in list
    ensures |Without(list, id)| == |list| - 1
    ensures Increasing(Without(list, id))
    ensures forall x :: x in Without(list, id) <==> x in list && x != id
  {
    var tail := list[1..];
    assert list == [list[0]] + tail;
    assert Increasing(tail);
    if list[0] == id {
      forall x | x in tail ensures x != id {
        var i :| 0 <= i < |tail| && tail[i] == x;
        assert list[i + 1] == x;
      }
    } else {
      WithoutRemoves(tail, id);
      var rest := Without(tail, id);
      forall x | x in rest ensures list[0] < x {
        var i :| 0 <= i < |tail| && tail[i] == x;
        assert list[i + 1] == x;
      }
      IncreasingCons(list[0], rest);
    }
  }

  lemma IncreasingCons(first: Id, rest: seq<Id>)
    requires Increasing(rest) && forall x :: x in rest ==> first < x
    ensures Increasing([first] + rest)
  {
    var list := [first] + rest;
    forall i, j | 0 <= i < j < |list| ensures list[i] < list[j] {
      assert list[j] == rest[j - 1] && rest[j - 1] in rest;
    }
  }

  lemma RemoveKeepsLists(scopes: map<string, seq<Id>>, ms: map<Id, Mutation>, id: Id)
    requires ListsAgree(scopes, ms) && id in ms
    ensures ListsAgree(RemoveFromScope(scopes, ms[id].scope, id), ms - {id})
  {
    var scopes' := RemoveFromScope(scopes, ms[id].scope, id);
    assert Listed(scopes, ms[id].scope, id);
    if ms[id].scope.Some? {
      var k := ms[id].scope.value;
      assert ListOf(k, scopes[k], ms);
      WithoutRemoves(scopes[k], id);
      if |scopes[k]| == 1 { assert scopes[k] == [id]; }
    }
    forall k | k in scopes'
      ensures ListOf(k, scopes'[k], ms - {id})
    {
      assert ListOf(k, scopes[k], ms);
    }
    forall i | i in ms - {id}
      ensures Listed(scopes', ms[i].scope, i)
    {
      assert Listed(scopes, ms[i].scope, i);
    }
  }

  lemma RemoveKeeps(s: State, id: Id)
    requires Inv(s) && id in s.mutations && !s.mutations[id].Pending()
    ensures Inv(Step(s, Remove(id)))
  {
    var ms := s.mutations;
    var ms' := ms - {id};
    RemoveKeepsLists(s.scopes, ms, id);
    forall j | j in ms'
      ensures LoggedBefore(s.starts, j, ms'[j]) && Sound(ms'[j], Head(ms', j), Awake(s))
    {
      assert LoggedBefore(s.starts, j, ms[j]) && Sound(ms[j], Head(ms, j), Awake(s));
      assert forall i :: i in ms' ==> (SameScope(ms', i, j) <==> SameScope(ms, i, j));
    }
  }

  // --- the window wakes or dozes ---------------------------------------------

  lemma ResumeAllKeeps(s: State)
    requires Bounded(s) && ListsAgree(s.scopes, s.mutations) && LogAgrees(s.starts, s.mutations)
    requires StagesAgree(s.mutations, Awake(s)) || (s.online && StagesAgree(s.mutations, false))
    ensures Inv(ResumeAll(s))
  {
    if s.online {
      var ms := s.mutations;
      var ms' := ResumeAll(s).mutations;
      PendingKeepsShape(s.scopes, ms, ms');
      forall id | id in ms
        ensures Sound(ms'[id], Head(ms', id), Awake(s)) && LoggedBefore(s.starts, id, ms'[id])
      {
        assert Sound(ms[id], Head(ms, id), false) && LoggedBefore(s.starts, id, ms[id]);
        if ms[id].Waiting() { CanRunIffHead(s, id); }
      }
    }
  }

  /** Waking the window resumes; anything else leaves it no more awake than before. */
  lemma MoveKeeps(s: State, t: State, resume: bool)
    requires Inv(s) && t == s.(focused := t.focused, online := t.online)
    requires resume ==> t.online || (t.focused && !s.online)
    requires !resume && Awake(t) ==> Awake(s)
    ensures Inv(if resume then ResumeAll(t) else t)
  {
    forall id | id in t.mutations
      ensures Sound(t.mutations[id], Head(t.mutations, id), Awake(t) && Awake(s))
    {
      assert Sound(s.mutations[id], Head(s.mutations, id), Awake(s));
    }
    if resume { ResumeAllKeeps(t); }
  }

  // --- every event keeps the invariant -------------------------------------

  lemma CallKeeps(s: State, e: Event)
    requires Inv(s) && Enabled(s, e) && (e.Prepared? || e.Continued? || e.Run?)
    ensures Inv(Step(s, e))
  {
    var m := s.mutations[e.id];
    assert Sound(m, Head(s.mutations, e.id), Awake(s));
    match e
    case Prepared(id, ok) =>
      CanRunIffHead(s, id);
      if ok && CanStart(s, id) {
        LaunchKeeps(s, id);
      } else {
        PutPending(s, id, if ok then m.(stage := WaitingToStart, isPaused := true) else m.(stage := Settling(false)));
      }
    case Continued(id) => PutPending(s, id, m.(stage := AboutToRun, isPaused := false));
    case Run(id) => LaunchKeeps(s, id);
  }

  lemma RetryKeeps(s: State, e: Event)
    requires Inv(s) && Enabled(s, e) && (e.FnSettled? || e.Wake?)
    ensures Inv(Step(s, e))
  {
    var m := s.mutations[e.id];
    assert Sound(m, Head(s.mutations, e.id), Awake(s));
    match e
    case FnSettled(id, ok, retry) =>
      PutPending(s, id, if ok || !retry then m.(stage := Settling(true))
                        else m.(stage := Sleeping, failureCount := m.failureCount + 1));
    case Wake(id) =>
      CanRunIffHead(s, id);
      PutPending(s, id, if CanContinue(s, id) then m.(stage := AboutToRun)
                        else m.(stage := WaitingToRetry, isPaused := true));
  }

  lemma StepKeeps(s: State, e: Event)
    requires Inv(s)
    ensures Inv(Step(s, e))
  {
    if Enabled(s, e) {
      match e
      case Submit(scope, mode) => SubmitKeeps(s, scope, mode);
      case Prepared(_, _) => CallKeeps(s, e);
      case Continued(_) => CallKeeps(s, e);
      case Run(_) => CallKeeps(s, e);
      case FnSettled(_, _, _) => RetryKeeps(s, e);
      case Wake(_) => RetryKeeps(s, e);
      case Finish(id, ok) => FinishKeeps(s, id, ok);
      case Remove(id) => RemoveKeeps(s, id);
      case Focus(now) => MoveKeeps(s, s.(focused := now), now);
      case Network(now) => MoveKeeps(s, s.(online := now), now && !s.online);
      case ResumePaused => ResumeAllKeeps(s);
    }
  }

  lemma {:induction false} ExecKeeps(focused: bool, online: bool, es: seq<Event>)
    ensures Inv(Exec(Initial(focused, online), es))
    decreases |es|
  {
    if es != [] {
      ExecKeeps(focused, online, es[..|es| - 1]);
      StepKeeps(Exec(Initial(focused, online), es[..|es| - 1]), es[|es| - 1]);
    }
  }

  // --- main results ------------------------------------------------------------

  /** In every run, two functions of one scope are never in flight together. */
  lemma OneInFlightPerScope(focused: bool, online: bool, es: seq<Event>, i: Id, j: Id)
    requires var ms := Exec(Initial(focused, online), es).mutations;
             i in ms && j in ms && SameScope(ms, i, j) && ms[i].stage.InFlight? && ms[j].stage.InFlight?
    ensures i == j
  {
    var s := Exec(Initial(focused, online), es);
    ExecKeeps(focused, online, es);
    assert Sound(s.mutations[i], Head(s.mutations, i), Awake(s));
    assert Sound(s.mutations[j], Head(s.mutations, j), Awake(s));
    assert SameScope(s.mutations, j, i);
  }

  /** In every run, the functions of one scope are first called in submission order, each once. */
  lemma StartsInSubmissionOrder(focused: bool, online: bool, es: seq<Event>)
    ensures LogInOrder(Exec(Initial(focused, online), es).starts)
  {
    ExecKeeps(focused, online, es);
  }

  /** Nothing is running, sleeping, being prepared or being settled. */
  ghost predicate Quiet(s: State) {
    forall id :: id in s.mutations && s.mutations[id].Pending() ==> s.mutations[id].Waiting()
  }

  /** In every run, a focused online window never comes to rest with a mutation left pending. */
  lemma NothingStuck(focused: bool, online: bool, es: seq<Event>)
    ensures var s := Exec(Initial(focused, online), es);
            Awake(s) && Quiet(s) ==> forall id :: id in s.mutations ==> !s.mutations[id].Pending()
  {
    var s := Exec(Initial(focused, online), es);
    ExecKeeps(focused, online, es);
    if Awake(s) && Quiet(s) {
      forall id | id in s.mutations
        ensures !s.mutations[id].Pending()
      {
        NothingPendingUpTo(s, id);
      }
    }
  }

  lemma {:induction false} NothingPendingUpTo(s: State, id: Id)
    requires StagesAgree(s.mutations, true) && Quiet(s) && id in s.mutations
    requires forall i :: i in s.mutations ==> 0 < i
    ensures !s.mutations[id].Pending()
    decreases id
  {
    forall i | i in s.mutations && i < id && SameScope(s.mutations, i, id)
      ensures !s.mutations[i].Pending()
    {
      NothingPendingUpTo(s, i);
    }
    assert Sound(s.mutations[id], Head(s.mutations, id), true);
  }

  /** When a mutation settles in an awake window, a waiting one of its scope resumes just if it is now the head. */
  lemma FinishWakesNextHead(focused: bool, online: bool, es: seq<Event>, id: Id, ok: bool, next: Id, t: State)
    requires var s := Exec(Initial(focused, online), es);
             && Awake(s) && Enabled(s, Finish(id, ok)) && t == Step(s, Finish(id, ok))
             && next in s.mutations && SameScope(s.mutations, id, next) && s.mutations[next].Waiting()
    ensures next in t.mutations && (t.mutations[next].stage.Resuming? <==> Head(t.mutations, next))
  {
    var s := Exec(Initial(focused, online), es);
    ExecKeeps(focused, online, es);
    FinishKeeps(s, id, ok);
    assert Sound(t.mutations[next], Head(t.mutations, next), true);
  }

  // --- what becomes of a mutation ----------------------------------------------------

  /** A new mutation awaits its onMutate callbacks, marked paused exactly if it could not start now. */
  lemma SubmitLeaves(focused: bool, online: bool, es: seq<Event>, scope: Option<string>, mode: NetworkMode)
    ensures var s := Exec(Initial(focused, online), es);
            var t, id := Step(s, Submit(scope, mode)), s.lastId + 1;
            && t.lastId == id && id !in s.mutations && t.mutations.Keys == s.mutations.Keys + {id}
            && t.mutations[id] == Mutation(scope, mode, Preparing, !(Head(t.mutations, id) && (mode.Online? ==> s.online)), 0)
            && (forall i :: i in s.mutations ==> t.mutations[i] == s.mutations[i])
            && t.starts == s.starts && t.focused == s.focused && t.online == s.online
  {
    ExecKeeps(focused, online, es);
    var s := Exec(Initial(focused, online), es);
    var m := SubmitAdds(s, scope, mode);
    StepKeeps(s, Submit(scope, mode));
    CanRunIffHead(Step(s, Submit(scope, mode)), s.lastId + 1);
    CanStartAgain(s, scope, mode);
  }

  /** Whether the new mutation may start is the same before and after it is marked pending. */
  lemma CanStartAgain(s: State, scope: Option<string>, mode: NetworkMode)
    requires Inv(s)
    ensures var id := s.lastId + 1;
            Step(s, Submit(scope, mode)).mutations[id].isPaused <==>
            !(CanRun(Step(s, Submit(scope, mode)), id) && (mode.Online? ==> s.online))
  {
    var id, t := s.lastId + 1, Step(s, Submit(scope, mode));
    var built := Mutation(scope, mode, Idle, false, 0);
    var added := Put(s, id, built).(lastId := id, scopes := AddToScope(s.scopes, scope, id));
    if scope.Some? {
      var list := t.scopes[scope.value];
      assert ListsAgree(t.scopes, t.mutations) by { StepKeeps(s, Submit(scope, mode)); }
      assert ListOf(scope.value, list, t.mutations);
      assert list[|list| - 1] == id;
      FirstPendingFinds(list, t.mutations);
      FirstPendingFinds(list, added.mutations);
      assert forall i :: i in list && i != id ==> t.mutations[i] == added.mutations[i];
    }
  }

  /**
   After onMutate the function is called at once exactly if the mutation is the head of its scope and
   the network is there, should its mode ask for it; after a failed onMutate it never is.
   */
  lemma PreparedStartsIff(focused: bool, online: bool, es: seq<Event>, id: Id, ok: bool)
    requires Enabled(Exec(Initial(focused, online), es), Prepared(id, ok))
    ensures var s := Exec(Initial(focused, online), es);
            var m, t := s.mutations[id], Step(s, Prepared(id, ok));
            var starts := ok && Head(s.mutations, id) && (m.mode.Online? ==> s.online);
            && t.mutations[id].stage == (if !ok then Settling(false) else if starts then InFlight else WaitingToStart)
            && t.mutations[id].isPaused == (if ok && !starts then true else m.isPaused)
            && t.starts == (if starts then s.starts + [Start(m.scope, id)] else s.starts)
            && OnlyMoves(s, t, id)
  {
    ExecKeeps(focused, online, es);
    CallsKeepExact(focused, online, es);
    CanRunIffHead(Exec(Initial(focused, online), es), id);
  }

  /** Nothing changes but the one mutation's stage, pause mark and failure count, and the log. */
  ghost predicate OnlyMoves(s: State, t: State, id: Id) {
    && id in s.mutations && id in t.mutations
    && t == s.(mutations := s.mutations[id := t.mutations[id]], starts := t.starts)
    && t.mutations[id] == s.mutations[id].(stage := t.mutations[id].stage, isPaused := t.mutations[id].isPaused,
                                           failureCount := t.mutations[id].failureCount)
  }

  /** A call that succeeds, or fails without another try, is the last one; any other failure is counted and slept on. */
  lemma CallSettles(s: State, id: Id, ok: bool, retry: bool)
    requires Enabled(s, FnSettled(id, ok, retry))
    ensures var m, t := s.mutations[id], Step(s, FnSettled(id, ok, retry));
            && OnlyMoves(s, t, id) && t.starts == s.starts && t.mutations[id].isPaused == m.isPaused
            && (t.mutations[id].stage == Settling(true) <==> ok || !retry)
            && (t.mutations[id].stage == Sleeping <==> !ok && retry)
            && t.mutations[id].failureCount == if !ok && retry then m.failureCount + 1 else m.failureCount
  {
  }

  /** After the retry delay the function is called again exactly if the window has focus and the network is there, should the mode ask for it. */
  lemma WakeGoesOnIff(focused: bool, online: bool, es: seq<Event>, id: Id)
    requires Enabled(Exec(Initial(focused, online), es), Wake(id))
    ensures var s := Exec(Initial(focused, online), es);
            var m, t := s.mutations[id], Step(s, Wake(id));
            var goes := s.focused && (m.mode.Always? || s.online);
            && OnlyMoves(s, t, id) && t.starts == s.starts && t.mutations[id].failureCount == m.failureCount
            && t.mutations[id].stage == (if goes then AboutToRun else WaitingToRetry)
            && t.mutations[id].isPaused == (if goes then m.isPaused else true)
  {
    ExecKeeps(focused, online, es);
    var s := Exec(Initial(focused, online), es);
    assert Sound(s.mutations[id], Head(s.mutations, id), Awake(s));
    CanRunIffHead(s, id);
  }

  /** The end of a pause takes the mark away, and then the function is called; it enters the log if it is the first call. */
  lemma ResumedRuns(s: State, id: Id)
    ensures Enabled(s, Continued(id)) ==>
              var t := Step(s, Continued(id));
              OnlyMoves(s, t, id) && t.starts == s.starts && t.mutations[id] == s.mutations[id].(stage := AboutToRun, isPaused := false)
    ensures Enabled(s, Run(id)) ==>
              var m, t := s.mutations[id], Step(s, Run(id));
              && OnlyMoves(s, t, id) && t.mutations[id] == m.(stage := InFlight)
              && t.starts == if m.failureCount == 0 then s.starts + [Start(m.scope, id)] else s.starts
  {
  }

  /** A mutation ends as its callbacks do: succeeded with a clean count, or failed with one failure more. */
  lemma FinishSettles(s: State, id: Id, ok: bool)
    requires Enabled(s, Finish(id, ok))
    ensures var m, t := s.mutations[id], Step(s, Finish(id, ok));
            && id in t.mutations
            && t.mutations[id].stage == (if ok then Succeeded else Failed)
            && t.mutations[id].failureCount == (if ok then 0 else m.failureCount + 1)
            && !t.mutations[id].isPaused && t.mutations[id].scope == m.scope && t.mutations[id].mode == m.mode
            && t.starts == s.starts && t.lastId == s.lastId && t.scopes == s.scopes && t.focused == s.focused && t.online == s.online
            && t.mutations.Keys == s.mutations.Keys
            && (forall i :: i in s.mutations && i != id ==> Unmoved(s, t, i) || Resumes(s, t, i))
  {
    var m := s.mutations[id];
    var put := Put(s, id, Settled(m, ok));
    if m.scope.Some? && m.scope.value in s.scopes {
      FirstPausedIsOther(s.scopes[m.scope.value], put.mutations, id);
    }
  }

  lemma {:induction false} FirstPausedIsOther(list: seq<Id>, ms: map<Id, Mutation>, except: Id)
    ensures FirstPaused(list, ms, except) != Some(except)
  {
    if list != [] { FirstPausedIsOther(list[1..], ms, except); }
  }

  predicate Unmoved(s: State, t: State, i: Id) {
    i in s.mutations && i in t.mutations && t.mutations[i] == s.mutations[i]
  }

  predicate Resumes(s: State, t: State, i: Id) {
    i in s.mutations && i in t.mutations && s.mutations[i].Waiting() && t.mutations[i] == s.mutations[i].(stage := Resuming)
  }

  /** A settled mutation stays as it is until it is collected. */
  lemma SettledStays(s: State, e: Event, id: Id)
    requires id in s.mutations && (s.mutations[id].stage.Succeeded? || s.mutations[id].stage.Failed?) && id <= s.lastId
    requires e != Remove(id)
    ensures Unmoved(s, Step(s, e), id) && s.lastId <= Step(s, e).lastId
  {
  }

  /** So what a mutation ended as is what anybody sees later. */
  lemma {:induction false} OutcomeStays(focused: bool, online: bool, es: seq<Event>, id: Id, ok: bool, later: seq<Event>)
    requires Enabled(Exec(Initial(focused, online), es), Finish(id, ok)) && Remove(id) !in later
    ensures var t := Exec(Initial(focused, online), es + [Finish(id, ok)] + later);
            id in t.mutations && t.mutations[id].stage == (if ok then Succeeded else Failed) && id <= t.lastId
    decreases |later|
  {
    var s0 := Initial(focused, online);
    if later == [] {
      ExecKeeps(focused, online, es);
      ExecOneMore(s0, es, Finish(id, ok));
      assert es + [Finish(id, ok)] + later == es + [Finish(id, ok)];
      FinishSettles(Exec(s0, es), id, ok);
    } else {
      var init, e := later[..|later| - 1], later[|later| - 1];
      assert later == init + [e];
      assert es + [Finish(id, ok)] + later == es + [Finish(id, ok)] + init + [e];
      OutcomeStays(focused, online, es, id, ok, init);
      ExecOneMore(s0, es + [Finish(id, ok)] + init, e);
      SettledStays(Exec(s0, es + [Finish(id, ok)] + init), e, id);
    }
  }

  /** A window that regains focus, a network that comes back, and the call itself continue the paused mutations. */
  predicate ResumesAll(s: State, e: Event) {
    e == Focus(true) || (e == Network(true) && !s.online) || e.ResumePaused?
  }

  /** They continue exactly the waiting heads of their scopes, and only in a focused window online; nothing else moves. */
  lemma ResumeIff(focused: bool, online: bool, es: seq<Event>, e: Event, id: Id)
    requires e.Focus? || e.Network? || e.ResumePaused?
    requires id in Exec(Initial(focused, online), es).mutations
    ensures var s := Exec(Initial(focused, online), es);
            var t := Step(s, e);
            && t.focused == (if e.Focus? then e.now else s.focused) && t.online == (if e.Network? then e.now else s.online)
            && t.starts == s.starts && t.scopes == s.scopes && t.lastId == s.lastId && t.mutations.Keys == s.mutations.Keys
            && (Resumes(s, t, id) <==>
                ResumesAll(s, e) && t.focused && t.online && s.mutations[id].Waiting() && Head(s.mutations, id))
            && (!Resumes(s, t, id) ==> Unmoved(s, t, id))
  {
    ExecKeeps(focused, online, es);
    var s := Exec(Initial(focused, online), es);
    var moved := if e.Focus? then s.(focused := e.now) else if e.Network? then s.(online := e.now) else s;
    if s.mutations[id].Pending() { CanRunIffHead(moved, id); }
    assert Sound(s.mutations[id], Head(s.mutations, id), Awake(s));
  }

  /** Collecting a settled mutation takes it out of the cache and out of its scope, and touches no other. */
  lemma RemoveLeaves(focused: bool, online: bool, es: seq<Event>, id: Id)
    requires Enabled(Exec(Initial(focused, online), es), Remove(id))
    ensures var s := Exec(Initial(focused, online), es);
            var t := Step(s, Remove(id));
            && t.mutations == s.mutations - {id} && t.starts == s.starts
            && t.lastId == s.lastId && t.focused == s.focused && t.online == s.online
            && (forall k :: k in t.scopes ==> k in s.scopes && id !in t.scopes[k])
            && (forall k, i :: k in s.scopes && i in s.scopes[k] && i != id ==> k in t.scopes && i in t.scopes[k])
  {
    ExecKeeps(focused, online, es);
    var s := Exec(Initial(focused, online), es);
    var ms, t := s.mutations, Step(s, Remove(id));
    forall k | k in s.scopes
      ensures k in t.scopes ==> id !in t.scopes[k]
      ensures forall i :: i in s.scopes[k] && i != id ==> k in t.scopes && i in t.scopes[k]
    {
      assert ListOf(k, s.scopes[k], ms) && Listed(s.scopes, ms[id].scope, id);
      if ms[id].scope == Some(k) {
        WithoutRemoves(s.scopes[k], id);
        if |s.scopes[k]| == 1 { assert s.scopes[k] == [id]; }
      }
    }
  }

  // --- the log of first calls is exact --------------------------------------------------

  ghost predicate Logged(starts: seq<Start>, id: Id, scope: Option<string>) {
    Start(scope, id) in starts
  }

  /** A mutation is in the log exactly if its function has been called. */
  predicate Accounts(m: Mutation, logged: bool) {
    && (m.stage.Preparing? || m.stage.WaitingToStart? || m.stage == Settling(false) ==> !logged && m.failureCount == 0)
    && (m.stage.Resuming? || m.stage.AboutToRun? ==> (logged <==> m.failureCount > 0))
    && (m.stage.InFlight? || m.stage.Sleeping? || m.stage.WaitingToRetry? || m.stage == Settling(true) ==> logged)
    && (m.stage.Sleeping? || m.stage.WaitingToRetry? ==> m.failureCount > 0)
    && !m.stage.Idle?
  }

  ghost predicate Exact(s: State) {
    && (forall id :: id in s.mutations ==> 0 < id <= s.lastId && Accounts(s.mutations[id], Logged(s.starts, id, s.mutations[id].scope)))
    && (forall i :: 0 <= i < |s.starts| ==> s.starts[i].id <= s.lastId)
    && (forall i :: 0 <= i < |s.starts| && s.starts[i].id in s.mutations ==> s.starts[i].scope == s.mutations[s.starts[i].id].scope)
    && (forall i, j :: 0 <= i < j < |s.starts| ==> s.starts[i].id != s.starts[j].id)
  }

  lemma MoveExact(s: State, id: Id, m: Mutation)
    requires Exact(s) && id in s.mutations && m.scope == s.mutations[id].scope
    requires Accounts(m, Logged(s.starts, id, m.scope))
    ensures Exact(Put(s, id, m))
  {
  }

  lemma LaunchExact(s: State, id: Id)
    requires Exact(s) && id in s.mutations
    requires s.mutations[id].failureCount == 0 <==> !Logged(s.starts, id, s.mutations[id].scope)
    ensures Exact(Launch(s, id))
  {
    var m, t := s.mutations[id], Launch(s, id);
    if m.failureCount == 0 {
      forall i | 0 <= i < |s.starts|
        ensures s.starts[i].id != id
      {
        assert s.starts[i] in s.starts;
        assert Logged(s.starts, s.starts[i].id, s.starts[i].scope);
      }
      assert forall j, k :: Logged(t.starts, j, k) <==> Logged(s.starts, j, k) || (j == id && k == m.scope);
    }
  }

  lemma MutationExact(s: State, e: Event)
    requires Exact(s) && Enabled(s, e) && (e.Prepared? || e.Run? || e.Continued? || e.FnSettled? || e.Wake?)
    ensures Exact(Step(s, e))
  {
    var m := s.mutations[e.id];
    assert Accounts(m, Logged(s.starts, e.id, m.scope));
    if e.Run? || (e.Prepared? && e.ok && CanStart(s, e.id)) {
      LaunchExact(s, e.id);
    } else {
      MoveExact(s, e.id, Step(s, e).mutations[e.id]);
    }
  }

  lemma ResumeExact(s: State)
    requires Exact(s)
    ensures Exact(ResumeAll(s))
  {
    var t := ResumeAll(s);
    forall i | i in t.mutations
      ensures Accounts(t.mutations[i], Logged(t.starts, i, t.mutations[i].scope)) && t.mutations[i].scope == s.mutations[i].scope
    {
      assert Accounts(s.mutations[i], Logged(s.starts, i, s.mutations[i].scope));
    }
  }

  lemma StepExact(s: State, e: Event)
    requires Exact(s)
    ensures Exact(Step(s, e))
  {
    if Enabled(s, e) {
      match e {
        case Submit(scope, mode) => SubmitExact(s, scope, mode);
        case Finish(id, ok) => FinishExact(s, id, ok);
        case Remove(id) =>
        case Focus(now) => ResumeExact(s.(focused := now));
        case Network(now) => ResumeExact(s.(online := now));
        case ResumePaused => ResumeExact(s);
        case _ => MutationExact(s, e);
      }
    }
  }

  lemma SubmitExact(s: State, scope: Option<string>, mode: NetworkMode)
    requires Exact(s)
    ensures Exact(Submitted(s, scope, mode))
  {
    var id := s.lastId + 1;
    assert forall k :: !Logged(s.starts, id, k);
  }

  lemma FinishExact(s: State, id: Id, ok: bool)
    requires Exact(s) && id in s.mutations && s.mutations[id].stage.Settling?
    ensures Exact(Finished(s, id, ok))
  {
    var put := Put(s, id, Settled(s.mutations[id], ok));
    MoveExact(s, id, put.mutations[id]);
    var t := Finished(s, id, ok);
    forall i | i in t.mutations
      ensures Accounts(t.mutations[i], Logged(t.starts, i, t.mutations[i].scope))
    {
      assert Accounts(put.mutations[i], Logged(put.starts, i, put.mutations[i].scope));
    }
  }

  /** In every run the log holds each mutation whose function was called, once, and no other. */
  lemma {:induction false} CallsKeepExact(focused: bool, online: bool, es: seq<Event>)
    ensures Exact(Exec(Initial(focused, online), es))
    decreases |es|
  {
    if es != [] {
      CallsKeepExact(focused, online, es[..|es| - 1]);
      StepExact(Exec(Initial(focused, online), es[..|es| - 1]), es[|es| - 1]);
    }
  }

  // --- mutations left paused that may go on --------------------------------------

  /** Paused, although its retryer could continue. */
  predicate Stranded(s: State, id: Id) {
    && id in s.mutations
    && s.mutations[id].Waiting()
    && CanContinue(s, id)
  }

  /** The head of its scope, waiting, and in no need of the network. */
  ghost predicate WaitingHead(s: State, id: Id) {
    id in s.mutations && s.mutations[id].Waiting() && s.mutations[id].mode.Always? && Head(s.mutations, id)
  }

  /**
   The client skips the resume on regaining focus while offline (`resumePausedMutations` of the
   client), so a head that needs no network stays paused.
   */
  ghost predicate Strands(s: State, e: Event, id: Id) {
    e == Focus(true) && !s.focused && !s.online && WaitingHead(s, id)
  }

  lemma StrandedHere(s: State, id: Id)
    requires Inv(s)
    ensures Stranded(s, id) <==> s.focused && !s.online && WaitingHead(s, id)
  {
    if id in s.mutations && s.mutations[id].Waiting() {
      CanRunIffHead(s, id);
      assert Sound(s.mutations[id], Head(s.mutations, id), Awake(s));
    }
  }

  /** In every run, a mutation is left paused that may go on exactly if it is such a head in a focused window offline. */
  lemma StrandedIff(focused: bool, online: bool, es: seq<Event>, id: Id)
    ensures var s := Exec(Initial(focused, online), es);
            Stranded(s, id) <==> s.focused && !s.online && WaitingHead(s, id)
  {
    ExecKeeps(focused, online, es);
    StrandedHere(Exec(Initial(focused, online), es), id);
  }

  /** A mutation that starts to wait in a step cannot go on, and no other becomes the head. */
  lemma MovingStrandsNone(s: State, i: Id, m: Mutation, id: Id)
    requires Inv(s) && i in s.mutations && s.mutations[i].Pending() && m.Pending() && m.scope == s.mutations[i].scope
    requires m.Waiting() && m.mode.Always? && s.focused ==> !Head(s.mutations, i)
    ensures s.focused && !s.online && WaitingHead(Put(s, i, m), id) ==> Stranded(s, id)
  {
    PendingKeepsShape(s.scopes, s.mutations, s.mutations[i := m]);
    StrandedHere(s, id);
  }

  /** A new head that waits is the first paused of its scope, and is continued at once. */
  lemma FinishStrandsNone(s: State, i: Id, ok: bool, id: Id)
    requires Inv(s) && i in s.mutations && s.mutations[i].stage.Settling?
    requires s.focused && !s.online && WaitingHead(Finished(s, i, ok), id)
    ensures Stranded(s, id)
  {
    var m, t := Settled(s.mutations[i], ok), Finished(s, i, ok);
    var put := Put(s, i, m);
    assert id in put.mutations && t.mutations[id] == put.mutations[id] && id != i;
    PendingKeepsShape(put.scopes, put.mutations, t.mutations);
    SettlingMovesHeads(s.mutations, i, m);
    SettlingKeepsLists(s.scopes, s.mutations, i, m);
    StrandedHere(s, id);
    if !Head(s.mutations, id) {
      assert SameScope(s.mutations, i, id);
      HeadIsContinued(put, i, id);
      assert false;
    }
  }

  lemma HeadIsContinued(s: State, i: Id, id: Id)
    requires ListsAgree(s.scopes, s.mutations) && i in s.mutations && id != i && s.focused
    requires WaitingHead(s, id) && SameScope(s.mutations, i, id) && s.mutations[id].isPaused
    requires forall j :: j in s.mutations && !s.mutations[j].Pending() ==> !s.mutations[j].isPaused
    ensures id in RunNext(s, i).mutations && !RunNext(s, i).mutations[id].Waiting()
  {
    var ms := s.mutations;
    var k := ms[i].scope.value;
    assert Listed(s.scopes, ms[i].scope, i) && Listed(s.scopes, ms[id].scope, id) && ListOf(k, s.scopes[k], ms);
    FirstPausedFinds(s.scopes[k], ms, i);
    var found := FirstPaused(s.scopes[k], ms, i);
    assert SameScope(ms, found.value, id);
    CanRunIffHead(s, id);
  }

  lemma FocusStrands(s: State, e: Event, id: Id)
    requires Inv(s) && (e.Focus? || e.Network? || e.ResumePaused?)
    ensures !Stranded(s, id) && Stranded(Step(s, e), id) <==> Strands(s, e, id)
  {
    var t := Step(s, e);
    StepKeeps(s, e);
    StrandedHere(s, id);
    StrandedHere(t, id);
    if !t.online {
      assert t.mutations == s.mutations;
    }
  }

  lemma SubmitStrandsNone(s: State, scope: Option<string>, mode: NetworkMode, id: Id)
    requires Inv(s) && WaitingHead(Submitted(s, scope, mode), id)
    ensures WaitingHead(s, id)
  {
    var ms, t := s.mutations, Submitted(s, scope, mode);
    assert id != s.lastId + 1 && t.mutations[id] == ms[id];
    assert forall j :: j in ms ==> j != s.lastId + 1 && t.mutations[j] == ms[j];
    assert forall j :: j in ms ==> (SameScope(t.mutations, j, id) <==> SameScope(ms, j, id));
  }

  lemma RemoveStrandsNone(s: State, i: Id, id: Id)
    requires Inv(s) && i in s.mutations && !s.mutations[i].Pending() && WaitingHead(Step(s, Remove(i)), id)
    ensures WaitingHead(s, id)
  {
    var ms, t := s.mutations, Step(s, Remove(i));
    assert forall j :: j in ms && j != i ==> (SameScope(t.mutations, j, id) <==> SameScope(ms, j, id));
  }

  lemma MutationStrandsNone(s: State, e: Event, id: Id)
    requires Inv(s) && Enabled(s, e) && (e.Prepared? || e.Continued? || e.Run? || e.FnSettled? || e.Wake?)
    requires s.focused && !s.online && WaitingHead(Step(s, e), id)
    ensures Stranded(s, id)
  {
    var t := Step(s, e);
    if e.Prepared? || e.Wake? { CanRunIffHead(s, e.id); }
    assert t.mutations == Put(s, e.id, t.mutations[e.id]).mutations;
    MovingStrandsNone(s, e.id, t.mutations[e.id], id);
  }

  lemma StepStrands(s: State, e: Event, id: Id)
    requires Inv(s)
    ensures !Stranded(s, id) && Stranded(Step(s, e), id) <==> Strands(s, e, id)
  {
    StepKeeps(s, e);
    StrandedHere(s, id);
    StrandedHere(Step(s, e), id);
    if e.Focus? || e.Network? || e.ResumePaused? {
      FocusStrands(s, e, id);
    } else if Enabled(s, e) && Stranded(Step(s, e), id) {
      match e {
        case Submit(scope, mode) => SubmitStrandsNone(s, scope, mode, id);
        case Finish(i, ok) => FinishStrandsNone(s, i, ok, id);
        case Remove(i) => RemoveStrandsNone(s, i, id);
        case _ => MutationStrandsNone(s, e, id);
      }
    }
  }

  /**
   In every run, one event strands a mutation exactly if it is the focus regained offline with that
   head waiting; such a focus changes no mutation at all.
   */
  lemma FocusOfflineResumesNothing(focused: bool, online: bool, es: seq<Event>, e: Event, id: Id)
    ensures var s, t := Exec(Initial(focused, online), es), Exec(Initial(focused, online), es + [e]);
            && (!Stranded(s, id) && Stranded(t, id) <==> Strands(s, e, id))
            && (e == Focus(true) && !s.online ==> t.mutations == s.mutations)
  {
    ExecKeeps(focused, online, es);
    StepStrands(Exec(Initial(focused, online), es), e, id);
    ExecOneMore(Initial(focused, online), es, e);
  }

  lemma ExecOneMore(s: State, es: seq<Event>, e: Event)
    ensures Exec(s, es + [e]) == Step(Exec(s, es), e)
  {
    assert (es + [e])[..|es|] == es;
  }

  const MINE: Option<string> := Some("s")

  function InScope(stage: Stage, isPaused: bool): Mutation {
    Mutation(MINE, Always, stage, isPaused, 0)
  }

  /** The first of a scope starts at once. */
  lemma FirstStarts() returns (s: State)
    ensures s == Step(Step(Initial(false, false), Submit(MINE, Always)), Prepared(1, true))
    ensures s == State(map[1 := InScope(InFlight, false)], map["s" := [1]], 1, false, false, [Start(MINE, 1)])
  {
    var s0 := Initial(false, false);
    assert [1][1..] == [] && FirstPending([1], map[1 := InScope(Idle, false)]) == FirstPending([], map[1 := InScope(Idle, false)]);
    var s1 := Step(s0, Submit(MINE, Always));
    assert s1.mutations == map[1 := InScope(Preparing, false)] && s1.scopes == map["s" := [1]];
    s := Step(s1, Prepared(1, true));
    assert s.mutations == map[1 := InScope(InFlight, false)];
  }

  /** The second waits for it. */
  lemma SecondWaits(s: State) returns (t: State)
    requires s == State(map[1 := InScope(InFlight, false)], map["s" := [1]], 1, false, false, [Start(MINE, 1)])
    ensures t == Step(Step(s, Submit(MINE, Always)), Prepared(2, true))
    ensures t == State(map[1 := InScope(InFlight, false), 2 := InScope(WaitingToStart, true)], map["s" := [1, 2]], 2, false, false, s.starts)
  {
    var added := Put(s, 2, InScope(Idle, false)).(lastId := 2, scopes := AddToScope(s.scopes, MINE, 2));
    assert FirstPending(added.scopes["s"], added.mutations) == Some(1);
    var s1 := Step(s, Submit(MINE, Always));
    assert s1.mutations == map[1 := InScope(InFlight, false), 2 := InScope(Preparing, true)] && s1.scopes == map["s" := [1] + [2]];
    assert [1] + [2] == [1, 2];
    t := Step(s1, Prepared(2, true));
    assert t.mutations == map[1 := InScope(InFlight, false), 2 := InScope(WaitingToStart, true)];
  }

  /** It becomes the head, and is not continued when the window regains focus. */
  lemma SecondIsStranded(s: State)
    requires s == State(map[1 := InScope(InFlight, false), 2 := InScope(WaitingToStart, true)], map["s" := [1, 2]], 2, false, false, s.starts)
    ensures Stranded(Step(Step(Step(s, FnSettled(1, true, false)), Finish(1, true)), Focus(true)), 2)
  {
    var s1 := Step(s, FnSettled(1, true, false));
    var put := Put(s1, 1, InScope(Succeeded, false));
    assert put.mutations[2] == InScope(WaitingToStart, true) && !put.focused;
    var s2 := Step(s1, Finish(1, true));
    assert s2 == put;
    assert [1, 2][1..] == [2];
    assert FirstPending([1, 2], put.mutations) == FirstPending([2], put.mutations) == Some(2);
  }

  /**
   And it happens: two mutations that need no network are submitted to one scope in an unfocused
   window offline, the first one runs and finishes, and the window regains focus.
   */
  lemma FocusOfflineStrands()
    ensures Stranded(Exec(Initial(false, false),
              [Submit(MINE, Always), Prepared(1, true)] + [Submit(MINE, Always), Prepared(2, true)] +
              [FnSettled(1, true, false), Finish(1, true)] + [Focus(true)]), 2)
  {
    var s := Initial(false, false);
    ExecTwoMore(s, [], Submit(MINE, Always), Prepared(1, true));
    assert [] + [Submit(MINE, Always), Prepared(1, true)] == [Submit(MINE, Always), Prepared(1, true)];
    var first := [Submit(MINE, Always), Prepared(1, true)];
    var started := FirstStarts();
    ExecTwoMore(s, first, Submit(MINE, Always), Prepared(2, true));
    var second := first + [Submit(MINE, Always), Prepared(2, true)];
    var waiting := SecondWaits(started);
    ExecTwoMore(s, second, FnSettled(1, true, false), Finish(1, true));
    ExecOneMore(s, second + [FnSettled(1, true, false), Finish(1, true)], Focus(true));
    SecondIsStranded(waiting);
  }

  lemma ExecTwoMore(s: State, es: seq<Event>, e: Event, f: Event)
    ensures Exec(s, es + [e, f]) == Step(Step(Exec(s, es), e), f)
  {
    assert es + [e, f] == es + [e] + [f];
    ExecOneMore(s, es, e);
    ExecOneMore(s, es + [e], f);
  }

  // --- the cache, updated in place -------------------------------------------

  lemma {:induction false} SamePendingSameFirst(list: seq<Id>, ms: map<Id, Mutation>, ms': map<Id, Mutation>)
    requires ms'.Keys == ms.Keys && forall i :: i in ms ==> ms'[i].Pending() == ms[i].Pending()
    ensures FirstPending(list, ms') == FirstPending(list, ms)
  {
    if list != [] { SamePendingSameFirst(list[1..], ms, ms'); }
  }

  /** `MutationCache` with its mutations, and the focus and online managers it consults. */
  class MutationCache {
    var mutations: map<Id, Mutation>
    var scopes: map<string, seq<Id>>
    var mutationId: nat
    var focused: bool
    var online: bool
    ghost var starts: seq<Start>

    ghost function View(): State reads this {
      State(mutations, scopes, mutationId, focused, online, starts)
    }

    constructor (focused: bool, online: bool)
      ensures View() == Initial(focused, online)
    {
      this.mutations, this.scopes, this.mutationId := map[], map[], 0;
      this.focused, this.online, this.starts := focused, online, [];
    }

    method CanRunNow(id: Id) returns (r: bool)
      requires id in mutations
      ensures r == CanRun(View(), id)
    {
      r := true;
      if mutations[id].scope.Some? && mutations[id].scope.value in scopes {
        var first := FirstPending(scopes[mutations[id].scope.value], mutations);
        r := first.None? || first.value == id;
      }
    }

    method Dispatch(id: Id, m: Mutation)
      modifies this`mutations
      ensures View() == Put(old(View()), id, m)
    {
      mutations := mutations[id := m];
    }

    /** `build`, `add` and the part of `execute` before its first await. */
    method Mutate(scope: Option<string>, mode: NetworkMode) returns (id: Id)
      modifies this
      ensures id == old(mutationId) + 1
      ensures View() == Step(old(View()), Submit(scope, mode))
    {
      mutationId := mutationId + 1;
      id := mutationId;
      Dispatch(id, Mutation(scope, mode, Idle, false, 0));
      if scope.Some? {
        scopes := scopes[scope.value := if scope.value in scopes then scopes[scope.value] + [id] else [id]];
      }
      ghost var added := View();
      assert added == Put(old(View()), id, Mutation(scope, mode, Idle, false, 0)).(lastId := id, scopes := AddToScope(old(scopes), scope, id));
      var canRun := CanRunNow(id);
      assert canRun == CanRun(added, id);
      var isPaused := !((mode.Online? ==> online) && canRun);
      Dispatch(id, Mutation(scope, mode, Preparing, isPaused, 0));
      assert View() == Put(added, id, Mutation(scope, mode, Preparing, !CanStart(added, id), 0));
    }

    /** The retryer's `run`: the call of the mutation function. */
    method CallFunction(id: Id)
      requires id in mutations
      modifies this
      ensures View() == Launch(old(View()), id)
    {
      ghost var m := mutations[id];
      Dispatch(id, mutations[id].(stage := InFlight));
      if m.failureCount == 0 { starts := starts + [Start(m.scope, id)]; }
    }

    /** The part of `execute` between the onMutate callbacks and the next suspension. */
    method StartRetryer(id: Id, ok: bool)
      requires Enabled(View(), Prepared(id, ok))
      modifies this
      ensures View() == Step(old(View()), Prepared(id, ok))
    {
      var m := mutations[id];
      var canRun := CanRunNow(id);
      if !ok {
        Dispatch(id, m.(stage := Settling(false)));
      } else if (m.mode.Online? ==> online) && canRun {
        CallFunction(id);
      } else {
        Dispatch(id, m.(stage := WaitingToStart, isPaused := true));
      }
    }

    /** A retryer's `continue`: resolves its pause when it may go on. */
    method ContinuePaused(id: Id)
      requires id in mutations
      modifies this`mutations
      ensures View() == Continue(old(View()), id)
    {
      var m := mutations[id];
      var canRun := CanRunNow(id);
      if m.Waiting() && focused && (m.mode.Always? || online) && canRun {
        Dispatch(id, m.(stage := Resuming));
      }
    }

    /** The onContinue callback, run once a pause has been resolved. */
    method OnContinue(id: Id)
      requires Enabled(View(), Continued(id))
      modifies this`mutations
      ensures View() == Step(old(View()), Continued(id))
    {
      Dispatch(id, mutations[id].(stage := AboutToRun, isPaused := false));
    }

    /** The function's promise settles: done, or asleep until the next attempt. */
    method OnFunctionSettled(id: Id, ok: bool, retry: bool)
      requires Enabled(View(), FnSettled(id, ok, retry))
      modifies this`mutations
      ensures View() == Step(old(View()), FnSettled(id, ok, retry))
    {
      var m := mutations[id];
      if ok || !retry {
        Dispatch(id, m.(stage := Settling(true)));
      } else {
        Dispatch(id, m.(stage := Sleeping, failureCount := m.failureCount + 1));
      }
    }

    method OnWake(id: Id)
      requires Enabled(View(), Wake(id))
      modifies this`mutations
      ensures View() == Step(old(View()), Wake(id))
    {
      var m := mutations[id];
      var canRun := CanRunNow(id);
      if focused && (m.mode.Always? || online) && canRun {
        Dispatch(id, m.(stage := AboutToRun));
      } else {
        Dispatch(id, m.(stage := WaitingToRetry, isPaused := true));
      }
    }

    /** The final dispatch of `execute`, and `runNext` in its `finally`. */
    method SettleAndRunNext(id: Id, ok: bool)
      requires Enabled(View(), Finish(id, ok))
      modifies this
      ensures View() == Step(old(View()), Finish(id, ok))
    {
      Dispatch(id, Settled(mutations[id], ok));
      var scope := mutations[id].scope;
      if scope.Some? && scope.value in scopes {
        var next := FirstPaused(scopes[scope.value], mutations, id);
        if next.Some? && next.value in mutations {
          ContinuePaused(next.value);
        }
      }
    }

    method Collect(id: Id)
      requires Enabled(View(), Remove(id))
      modifies this
      ensures View() == Step(old(View()), Remove(id))
    {
      scopes := RemoveFromScope(scopes, mutations[id].scope, id);
      mutations := mutations - {id};
    }

    /** Continues the paused mutations in submission order; they do not get in each other's way. */
    method ResumePausedMutations()
      requires Bounded(View())
      modifies this`mutations
      ensures View() == ResumeAll(old(View()))
    {
      if online {
        ghost var s := View();
        for id := 1 to mutationId + 1
          invariant View() == s.(mutations := mutations) && mutations.Keys == s.mutations.Keys
          invariant forall i :: i in s.mutations ==>
                      mutations[i] == if i < id && s.mutations[i].isPaused then Continue(s, i).mutations[i] else s.mutations[i]
        {
          if id in mutations && mutations[id].isPaused {
            ghost var t := View();
            forall k | k in scopes { SamePendingSameFirst(scopes[k], s.mutations, t.mutations); }
            assert CanRun(t, id) == CanRun(s, id);
            ContinuePaused(id);
          }
        }
        forall i | i in s.mutations ensures mutations[i] == ResumeAll(s).mutations[i] {
          assert 0 < i <= s.lastId;
        }
        assert mutations == ResumeAll(s).mutations;
      }
    }

    method SetFocused(now: bool)
      requires Bounded(View())
      modifies this
      ensures View() == Step(old(View()), Focus(now))
    {
      focused := now;
      if now { ResumePausedMutations(); }
    }

    method SetOnline(now: bool)
      requires Bounded(View())
      modifies this
      ensures View() == Step(old(View()), Network(now))
    {
      var changed := online != now;
      online := now;
      if changed && now { ResumePausedMutations(); }
    }
  }
}
