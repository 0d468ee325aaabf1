/**
 REST creates racing with reconcile workers over the table of repositories.

 Each database or disk call is one atomic step, and any number of workers take their steps in any
 order.  A call may succeed, fail, or take effect while its answer is lost.  Rows may be deleted at
 any time.  `born` and `maker` remember every insert that ever committed and who made it.
 */
module RepoRace {
  import opened Options

  datatype Key = Key(ownerId: int, name: string)

  datatype Role = Api | Operator

  /** The next call of a worker, or how it ended; a carried id is the one it answers with. */
  datatype At =
    | Looking                       // the operator looks the row up
    | Inserting
    | Initializing(id: int)         // the handler makes the bare repository
    | Undoing(id: int)              // and deletes its record when that failed
    | Syncing(id: int)              // the operator updates the row it found
    | Rereading                     // the operator lost the insert
    | Done(id: int)
    | Conflict                      // the handler answers 409
    | Gone                          // the worker ends with an error

  datatype Worker = Worker(role: Role, key: Key, at: At)

  datatype Outcome = Fine | Error | Lost

  datatype State = State(rows: map<int, Key>, born: map<int, Key>, maker: map<int, int>, next: int, workers: map<int, Worker>)

  datatype Event =
    | Arrive(w: int, role: Role, key: Key)
    | Advance(w: int, outcome: Outcome)
    | Delete(id: int)

  const EMPTY := State(map[], map[], map[], 0, map[])

  /** The row of a key, as the unique index finds it. */
  ghost function IdOf(rows: map<int, Key>, key: Key): (r: Option<int>)
    ensures r.None? ==> forall id :: id in rows ==> rows[id] != key
    ensures r.Some? ==> r.value in rows && rows[r.value] == key
  {
    if exists id :: id in rows && rows[id] == key then var id :| id in rows && rows[id] == key; Some(id) else None
  }

  ghost predicate Taken(rows: map<int, Key>, key: Key) {
    IdOf(rows, key).Some?
  }

  function At0(role: Role): At {
    match role case Api => Inserting case Operator => Looking
  }

  function Move(s: State, w: int, at: At): State
    requires w in s.workers
  {
    s.(workers := s.workers[w := s.workers[w].(at := at)])
  }

  function InsertRow(s: State, w: int, key: Key): State {
    s.(rows := s.rows[s.next := key], born := s.born[s.next := key], maker := s.maker[s.next := w], next := s.next + 1)
  }

  ghost function InsertStep(s: State, w: int, outcome: Outcome): State
    requires w in s.workers
  {
    var me := s.workers[w];
    if outcome.Error? then Move(s, w, Gone)
    else if Taken(s.rows, me.key) then
      Move(s, w, if outcome.Lost? then Gone else if me.role.Api? then Conflict else Rereading)
    else
      Move(InsertRow(s, w, me.key), w, if outcome.Lost? then Gone else if me.role.Api? then Initializing(s.next) else Done(s.next))
  }

  ghost function AdvanceStep(s: State, w: int, outcome: Outcome): State
    requires w in s.workers
  {
    var me := s.workers[w];
    match me.at
    case Looking =>
      Move(s, w,
        if !outcome.Fine? then Gone
        else match IdOf(s.rows, me.key) case Some(id) => Syncing(id) case None => Inserting)
    case Inserting => InsertStep(s, w, outcome)
    case Initializing(id) => Move(s, w, if outcome.Fine? then Done(id) else Undoing(id))
    case Undoing(id) => Move(if outcome.Error? then s else s.(rows := s.rows - {id}), w, Gone)
    case Syncing(id) => Move(s, w, Done(id))
    case Rereading =>
      Move(s, w,
        if !outcome.Fine? then Gone
        else match IdOf(s.rows, me.key) case Some(id) => Done(id) case None => Gone)
    case Done(_) => s
    case Conflict => s
    case Gone => s
  }

  ghost function Step(s: State, e: Event): State {
    match e
    case Arrive(w, role, key) => if w in s.workers then s else s.(workers := s.workers[w := Worker(role, key, At0(role))])
    case Advance(w, outcome) => if w in s.workers then AdvanceStep(s, w, outcome) else s
    case Delete(id) => s.(rows := s.rows - {id})
  }

  ghost function Exec(s: State, es: seq<Event>): State
    decreases |es|
  {
    if es == [] then s else Exec(Step(s, es[0]), es[1..])
  }

  // --- what every step keeps -----------------------------------------------------------

  /** The unique constraint of the table. */
  ghost predicate OneRowPerKey(rows: map<int, Key>) {
    forall i, j :: i in rows && j in rows && rows[i] == rows[j] ==> i == j
  }

  predicate Carries(at: At) {
    at.Initializing? || at.Undoing? || at.Syncing? || at.Done?
  }

  /** A carried id is one that was inserted for the worker's own key; one it may delete it inserted itself. */
  predicate Honest(s: State, w: int, me: Worker) {
    && (Carries(me.at) ==> me.at.id in s.born && s.born[me.at.id] == me.key)
    && (me.at.Initializing? || me.at.Undoing? ==> me.role.Api? && me.at.id in s.maker && s.maker[me.at.id] == w)
  }

  ghost predicate TableInv(s: State) {
    && OneRowPerKey(s.rows)
    && (forall id :: id in s.rows ==> id in s.born && s.born[id] == s.rows[id])
    && (forall id :: id in s.born <==> id in s.maker)
    && (forall id :: id in s.born ==> id < s.next)
  }

  ghost predicate Inv(s: State) {
    && TableInv(s)
    && forall w :: w in s.workers ==> Honest(s, w, s.workers[w])
  }

  lemma InsertKeeps(s: State, w: int)
    requires Inv(s) && w in s.workers && !Taken(s.rows, s.workers[w].key)
    ensures Inv(InsertRow(s, w, s.workers[w].key))
  {
  }

  lemma MoveKeeps(s: State, w: int, at: At)
    requires Inv(s) && w in s.workers && Honest(s, w, s.workers[w].(at := at))
    ensures Inv(Move(s, w, at))
  {
  }

  lemma RemoveKeeps(s: State, id: int)
    requires Inv(s)
    ensures Inv(s.(rows := s.rows - {id}))
  {
  }

  lemma InsertStepKeeps(s: State, w: int, outcome: Outcome)
    requires Inv(s) && w in s.workers && s.workers[w].at.Inserting?
    ensures Inv(InsertStep(s, w, outcome))
  {
    var me := s.workers[w];
    if outcome.Error? || Taken(s.rows, me.key) {
      MoveKeeps(s, w, InsertStep(s, w, outcome).workers[w].at);
    } else {
      InsertKeeps(s, w);
      MoveKeeps(InsertRow(s, w, me.key), w, InsertStep(s, w, outcome).workers[w].at);
    }
  }

  lemma AdvanceKeeps(s: State, w: int, outcome: Outcome)
    requires Inv(s) && w in s.workers
    ensures Inv(AdvanceStep(s, w, outcome))
  {
    var me, t := s.workers[w], AdvanceStep(s, w, outcome);
    match me.at {
      case Inserting => InsertStepKeeps(s, w, outcome);
      case Undoing(id) =>
        RemoveKeeps(s, id);
        MoveKeeps(if outcome.Error? then s else s.(rows := s.rows - {id}), w, Gone);
      case Done(_) =>
      case Conflict =>
      case Gone =>
      case _ => MoveKeeps(s, w, t.workers[w].at);
    }
  }

  lemma StepKeeps(s: State, e: Event)
    requires Inv(s)
    ensures Inv(Step(s, e))
  {
    match e
    case Delete(id) => RemoveKeeps(s, id);
    case Advance(w, outcome) => if w in s.workers { AdvanceKeeps(s, w, outcome); }
    case Arrive(w, role, key) =>
  }

  lemma {:induction false} ExecKeeps(s: State, es: seq<Event>)
    requires Inv(s)
    ensures Inv(Exec(s, es))
    decreases |es|
  {
    if es != [] {
      StepKeeps(s, es[0]);
      ExecKeeps(Step(s, es[0]), es[1..]);
    }
  }

  // --- the results ------------------------------------------------------------------------

  /** No row of this key was ever deleted. */
  ghost predicate NeverDeleted(s: State, key: Key) {
    forall id :: id in s.born && s.born[id] == key ==> id in s.rows
  }

  ghost predicate Answers(s: State, w: int, key: Key) {
    w in s.workers && s.workers[w].key == key && Carries(s.workers[w].at)
  }

  /**
   In every interleaving there is at most one row of a key.  While none of its rows was deleted, at
   most one insert of the key has succeeded, and every worker on its success path carries that row's
   id, whichever way it learned it.
   */
  lemma RacesAgree(es: seq<Event>, key: Key)
    ensures var s := Exec(EMPTY, es);
            && OneRowPerKey(s.rows)
            && (NeverDeleted(s, key) ==>
                  && (forall i, j :: i in s.born && j in s.born && s.born[i] == key && s.born[j] == key ==> i == j)
                  && (forall w :: Answers(s, w, key) ==> IdOf(s.rows, key) == Some(s.workers[w].at.id)))
  {
    ExecKeeps(EMPTY, es);
  }

  /** With deletions a carried id may be stale, but it never is another repository's row. */
  lemma NeverAnothersRow(es: seq<Event>, w: int)
    ensures var s := Exec(EMPTY, es);
            w in s.workers && Carries(s.workers[w].at) && s.workers[w].at.id in s.rows ==>
              s.rows[s.workers[w].at.id] == s.workers[w].key
  {
    ExecKeeps(EMPTY, es);
  }

  /** The handler's compensation takes back the handler's own insert and nothing else. */
  lemma CompensationIsOwn(es: seq<Event>, w: int, outcome: Outcome)
    ensures var s := Exec(EMPTY, es);
            w in s.workers && s.workers[w].at.Undoing? ==>
              var id := s.workers[w].at.id;
              && id in s.maker && s.maker[id] == w && id in s.born && s.born[id] == s.workers[w].key
              && forall other :: other in s.rows && other != id ==>
                   other in Step(s, Advance(w, outcome)).rows
  {
    ExecKeeps(EMPTY, es);
  }

  /** Two workers of one key carry different ids only if a row of that key was deleted. */
  lemma DisagreementNeedsDeletion(es: seq<Event>, v: int, w: int, key: Key)
    ensures var s := Exec(EMPTY, es);
            Answers(s, v, key) && Answers(s, w, key) && s.workers[v].at.id != s.workers[w].at.id ==>
              !NeverDeleted(s, key)
  {
    RacesAgree(es, key);
  }

  /** A reconcile that lost the insert answers with the winner's id, unless the row has gone since or the call fails. */
  lemma LoserAdoptsWinner(es: seq<Event>, w: int, outcome: Outcome)
    ensures var s := Exec(EMPTY, es);
            w in s.workers && s.workers[w].at.Rereading? ==>
              var t := Step(s, Advance(w, outcome));
              && t.rows == s.rows
              && (t.workers[w].at.Done? <==> outcome.Fine? && Taken(s.rows, s.workers[w].key))
              && (t.workers[w].at.Done? ==> t.workers[w].at.id in s.rows && s.rows[t.workers[w].at.id] == s.workers[w].key)
              && (t.workers[w].at.Done? || t.workers[w].at.Gone?) && SameTable(s, t) && OnlyMoves(s, t, w, t.workers[w].at)
  {
  }

  /** A worker's step touches nobody else's place. */
  ghost predicate OnlyMoves(s: State, t: State, w: int, at: At) {
    w in s.workers && t.workers == s.workers[w := s.workers[w].(at := at)]
  }

  ghost predicate SameTable(s: State, t: State) {
    t.rows == s.rows && t.born == s.born && t.maker == s.maker && t.next == s.next
  }

  /**
   An insert makes a row under a new id exactly if its key has none and the call takes effect; then
   the handler goes on to make the directory and the reconcile is done.  On a conflict the handler
   answers 409 and the reconcile reads again.  A call whose answer is lost ends the worker either way.
   */
  lemma InsertOutcome(s: State, w: int, outcome: Outcome)
    requires w in s.workers && s.workers[w].at.Inserting?
    ensures var me, t := s.workers[w], Step(s, Advance(w, outcome));
            var inserts := !outcome.Error? && forall id :: id in s.rows ==> s.rows[id] != me.key;
            && (inserts ==> t.rows == s.rows[s.next := me.key] && t.born == s.born[s.next := me.key]
                            && t.maker == s.maker[s.next := w] && t.next == s.next + 1)
            && (!inserts ==> SameTable(s, t))
            && OnlyMoves(s, t, w,
                 if !outcome.Fine? then Gone
                 else if inserts then (if me.role.Api? then Initializing(s.next) else Done(s.next))
                 else if me.role.Api? then Conflict else Rereading)
  {
  }

  /** A lookup leads to a sync of the row that is there, or to an insert, or fails; a sync is not waited for. */
  lemma LookupOutcome(s: State, w: int, outcome: Outcome)
    requires w in s.workers && (s.workers[w].at.Looking? || s.workers[w].at.Syncing?)
    ensures var me, t := s.workers[w], Step(s, Advance(w, outcome));
            && SameTable(s, t) && OnlyMoves(s, t, w, t.workers[w].at)
            && (me.at.Syncing? ==> t.workers[w].at == Done(me.at.id))
            && (me.at.Looking? ==>
                  if !outcome.Fine? then t.workers[w].at.Gone?
                  else if t.workers[w].at.Syncing? then t.workers[w].at.id in s.rows && s.rows[t.workers[w].at.id] == me.key
                  else t.workers[w].at.Inserting? && forall id :: id in s.rows ==> s.rows[id] != me.key)
  {
  }

  /** A directory that is made ends the handler in success; one that is not leads to the delete, which ends it in failure. */
  lemma InitOutcome(s: State, w: int, outcome: Outcome)
    requires w in s.workers && (s.workers[w].at.Initializing? || s.workers[w].at.Undoing?)
    ensures var me, t := s.workers[w], Step(s, Advance(w, outcome));
            && t.born == s.born && t.maker == s.maker && t.next == s.next
            && (me.at.Initializing? ==>
                  t.rows == s.rows && OnlyMoves(s, t, w, if outcome.Fine? then Done(me.at.id) else Undoing(me.at.id)))
            && (me.at.Undoing? ==>
                  t.rows == (if outcome.Error? then s.rows else s.rows - {me.at.id}) && OnlyMoves(s, t, w, Gone))
  {
  }

  /** A deletion takes one row and leaves every worker where it is. */
  lemma DeleteTakesOne(s: State, id: int)
    ensures var t := Step(s, Delete(id));
            && t == s.(rows := t.rows) && id !in t.rows
            && forall other :: other != id ==> (other in t.rows <==> other in s.rows) && (other in s.rows ==> t.rows[other] == s.rows[other])
  {
  }

  /** Workers arrive once, the handler with its insert and the reconcile with its lookup, and one that has ended does nothing. */
  lemma ArriveAndEnd(s: State, w: int, role: Role, key: Key, outcome: Outcome)
    ensures w !in s.workers ==>
              Step(s, Arrive(w, role, key)) ==
              s.(workers := s.workers[w := Worker(role, key, if role.Api? then Inserting else Looking)])
    ensures w in s.workers ==> Step(s, Arrive(w, role, key)) == s
    ensures w in s.workers && (s.workers[w].at.Done? || s.workers[w].at.Conflict? || s.workers[w].at.Gone?) ==>
              Step(s, Advance(w, outcome)) == s
  {
  }

  /**
   A reconcile can end with the id of a row that is no longer there: it found the handler's row, and
   then the handler failed to make the directory and took its row back.
   */
  lemma CompensationCanStrand(key: Key)
    ensures var s := Exec(EMPTY, [Arrive(1, Api, key), Advance(1, Fine), Arrive(2, Operator, key), Advance(2, Fine),
                                  Advance(1, Error), Advance(1, Fine), Advance(2, Error)]);
            && s.rows == map[]
            && 1 in s.workers && s.workers[1].at == Gone
            && 2 in s.workers && s.workers[2].at == Done(0)
  {
    var es := [Arrive(1, Api, key), Advance(1, Fine), Arrive(2, Operator, key), Advance(2, Fine),
               Advance(1, Error), Advance(1, Fine), Advance(2, Error)];
    Unroll(EMPTY, es, 0);
    var s1 := Step(EMPTY, es[0]);
    Unroll(s1, es, 1);
    var s2 := Step(s1, es[1]);
    assert s2.rows == map[0 := key];
    Unroll(s2, es, 2);
    var s3 := Step(s2, es[2]);
    assert s3.rows[0] == key;
    Unroll(s3, es, 3);
    var s4 := Step(s3, es[3]);
    assert s4.workers[2].at == Syncing(0);
    Unroll(s4, es, 4);
    var s5 := Step(s4, es[4]);
    Unroll(s5, es, 5);
    var s6 := Step(s5, es[5]);
    assert s6.rows == map[];
    Unroll(s6, es, 6);
  }

  lemma Unroll(s: State, es: seq<Event>, i: int)
    requires 0 <= i < |es|
    ensures Exec(s, es[i..]) == Exec(Step(s, es[i]), es[i + 1..])
    ensures es[0..] == es && Exec(s, es[|es|..]) == s
  {
    assert es[i..][1..] == es[i + 1..];
  }

  // --- one create on its own -----------------------------------------------------------------

  /** The calls of one handler with nobody in between. */
  ghost function CreateAlone(rows: map<int, Key>, next: int, key: Key, insert: Outcome, init: bool, undo: Outcome): State {
    var arrived := Step(State(rows, map[], map[], next, map[]), Arrive(0, Api, key));
    var inserted := Step(arrived, Advance(0, insert));
    Step(Step(inserted, Advance(0, if init then Fine else Error)), Advance(0, undo))
  }

  datatype Inserted = Row(id: int) | Duplicate | Failed

  /** The table with its primary key and its unique index. */
  class Store {
    var rows: map<int, Key>
    var index: map<Key, int>
    var next: int

    ghost predicate Valid()
      reads this
    {
      && (forall id :: id in rows ==> id < next && rows[id] in index && index[rows[id]] == id)
      && (forall key :: key in index ==> index[key] in rows && rows[index[key]] == key)
    }

    constructor ()
      ensures Valid() && rows == map[] && next == 0
    {
      rows, index, next := map[], map[], 0;
    }

    /** `mapErr` turns a violation of the unique constraint into a conflict. */
    method CreateRepo(key: Key, outcome: Outcome) returns (r: Inserted)
      requires Valid()
      modifies this
      ensures Valid()
      ensures r == (if !outcome.Fine? then Failed else if Taken(old(rows), key) then Duplicate else Row(old(next)))
      ensures rows == if outcome.Error? || Taken(old(rows), key) then old(rows) else old(rows)[old(next) := key]
      ensures next == if outcome.Error? || Taken(old(rows), key) then old(next) else old(next) + 1
    {
      assert key in index <==> Taken(rows, key);
      if outcome.Error? {
        return Failed;
      }
      if key in index {
        return if outcome.Lost? then Failed else Duplicate;
      }
      rows, index := rows[next := key], index[key := next];
      r := if outcome.Lost? then Failed else Row(next);
      next := next + 1;
    }

    method DeleteRepo(id: int, outcome: Outcome)
      requires Valid()
      modifies this`rows, this`index
      ensures Valid()
      ensures rows == if outcome.Error? then old(rows) else old(rows) - {id}
    {
      if !outcome.Error? && id in rows {
        rows, index := rows - {id}, index - {rows[id]};
      }
    }

    /** The handler: insert the row, make the bare repository, and take the row back if that fails. */
    method Create(key: Key, insert: Outcome, init: bool, undo: Outcome) returns (answer: At)
      requires Valid()
      modifies this
      ensures Valid()
      ensures var s := CreateAlone(old(rows), old(next), key, insert, init, undo);
              rows == s.rows && next == s.next && answer == s.workers[0].at
    {
      var r := CreateRepo(key, insert);
      match r {
        case Duplicate => answer := Conflict;
        case Failed => answer := Gone;
        case Row(id) =>
          if init {
            answer := Done(id);
          } else {
            DeleteRepo(id, undo);
            answer := Gone;
          }
      }
    }
  }

  /** A create that fails leaves no row behind, except when the insert's answer was lost or the undo failed. */
  lemma FailedCreateLeaves(rows: map<int, Key>, next: int, key: Key, insert: Outcome, init: bool, undo: Outcome)
    requires next !in rows
    ensures var s := CreateAlone(rows, next, key, insert, init, undo);
            && 0 in s.workers
            && (s.workers[0].at.Done? <==> insert.Fine? && init && !Taken(rows, key))
            && (s.workers[0].at.Conflict? <==> insert.Fine? && Taken(rows, key))
            && (s.rows == rows <==> Taken(rows, key) || insert.Error? || (insert.Fine? && !init && !undo.Error?))
            && (s.rows != rows ==> s.rows == rows[next := key])
  {
    assert next in rows[next := key];
    assert rows[next := key] - {next} == rows;
  }
}
