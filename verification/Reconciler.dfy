/**
 The repository controller: a level-triggered loop over a custom resource, the disk and the database.

 Every call to the API server, the disk or the store may fail; `Calls` says which calls of one
 reconcile succeed.  `Reconcile` is the effect of one call of the controller on the cluster, and
 class `Controller` performs it step by step.  Rows are keyed by what the unique constraint of
 the table makes unique, the owner's id and the name; resources by their name.
 */
module Reconciler {
  import opened Options
  import opened RepoNames

  datatype Phase = Unset | Pending | Ready | Failed | Deleting

  datatype Reason = Initializing | InitFailed | Initialized | InvalidOwnerId | CreateFailed | Synced | AllReady

  datatype Condition = Absent | Condition(status: bool, reason: Reason, generation: int)

  datatype Status = Status(
    phase: Phase,
    diskPath: string,
    databaseId: Option<int>,
    observedGeneration: int,
    diskReady: Condition,
    databaseSynced: Condition,
    ready: Condition)

  /** `ownerId` is what parsing the owner's UUID yields. */
  datatype Spec = Spec(owner: string, ownerId: Option<int>, name: string, description: string, isPrivate: bool, defaultBranch: string)

  datatype Resource = Resource(
    generation: int, deleting: bool, finalizer: bool, otherFinalizers: bool, spec: Spec, status: Status)

  datatype Key = Key(ownerId: int, name: string)

  datatype Row = Row(id: int, description: Option<string>, isPrivate: bool, defaultBranch: string, diskPath: string)

  datatype World = World(resources: map<string, Resource>, disk: set<string>, rows: map<Key, Row>)

  /**
   Which calls succeed, the id the database would give a new row, and the row that somebody else
   inserts between this reconcile's lookup and its insert.
   */
  datatype Calls = Calls(
    get: bool, update: bool, status: bool, init: bool, lookup: bool, insert: bool, reread: bool, sync: bool,
    removeDir: bool, deleteRow: bool, newId: int, raced: Option<Row>)

  const NEW_STATUS := Status(Unset, "", None, 0, Absent, Absent, Absent)

  // --- the store ---------------------------------------------------------------------

  function NonEmpty(s: string): Option<string> {
    if s == "" then None else Some(s)
  }

  function NewRow(id: int, spec: Spec, diskPath: string): Row {
    Row(id, NonEmpty(spec.description), spec.isPrivate, spec.defaultBranch, diskPath)
  }

  function Coalesce<T>(value: Option<T>, kept: T): T {
    match value case Some(v) => v case None => kept
  }

  /** `UpdateRepo` as `syncDBRecord` calls it: an empty description is not sent, so the row keeps its own. */
  function SyncedRow(row: Row, spec: Spec): Row {
    Row(row.id,
        match NonEmpty(spec.description) case Some(d) => Some(d) case None => row.description,
        Coalesce(Some(spec.isPrivate), row.isPrivate),
        Coalesce(Some(spec.defaultBranch), row.defaultBranch),
        row.diskPath)
  }

  function WithoutId(rows: map<Key, Row>, id: int): map<Key, Row> {
    map k | k in rows && rows[k].id != id :: rows[k]
  }

  /** What the database stage of a reconcile ends with. */
  datatype Record = Have(id: int) | CreateError | LookupError

  /** Look the row up, then sync or insert it; on a conflict read again what the other insert left. */
  function EnsureRecord(rows: map<Key, Row>, key: Key, spec: Spec, diskPath: string, c: Calls): (Record, map<Key, Row>) {
    if !c.lookup then (LookupError, rows)
    else if key in rows then
      (Have(rows[key].id), if c.sync then rows[key := SyncedRow(rows[key], spec)] else rows)
    else
      match c.raced
      case Some(other) => (if c.insert && c.reread then Have(other.id) else CreateError, rows[key := other])
      case None =>
        if c.insert then (Have(c.newId), rows[key := NewRow(c.newId, spec, diskPath)]) else (CreateError, rows)
  }

  // --- the status a reconcile computes ------------------------------------------------

  function PendingStatus(s: Status, generation: int): Status {
    s.(phase := Pending,
       diskReady := Condition(false, Initializing, generation),
       databaseSynced := Condition(false, Initializing, generation),
       ready := Condition(false, Initializing, generation))
  }

  function DiskFailedStatus(s: Status, generation: int): Status {
    s.(phase := Failed, diskReady := Condition(false, InitFailed, generation))
  }

  function DiskReadyStatus(s: Status, generation: int, diskPath: string): Status {
    s.(diskPath := diskPath, diskReady := Condition(true, Initialized, generation))
  }

  function ReadyStatus(s: Status, generation: int, id: int): Status {
    s.(phase := Ready, databaseId := Some(id), observedGeneration := generation,
       databaseSynced := Condition(true, Synced, generation),
       ready := Condition(true, AllReady, generation))
  }

  /** The status to persist after the database stage, if any. */
  function RecordStatus(s: Status, generation: int, record: Record): Option<Status> {
    match record
    case LookupError => None
    case CreateError => Some(s.(databaseSynced := Condition(false, CreateFailed, generation)))
    case Have(id) => Some(ReadyStatus(s, generation, id))
  }

  function PutStatus(w: World, name: string, status: Option<Status>, ok: bool): World
    requires name in w.resources
  {
    if ok && status.Some? then w.(resources := w.resources[name := w.resources[name].(status := status.value)]) else w
  }

  // --- one reconcile --------------------------------------------------------------------

  function PathOf(root: string, spec: Spec): string {
    RepoPath(root, spec.owner, spec.name)
  }

  function ReconcileLive(root: string, w: World, name: string, c: Calls): World
    requires name in w.resources
  {
    var r := w.resources[name];
    var path := PathOf(root, r.spec);
    if path !in w.disk && !c.init then
      PutStatus(w, name, Some(DiskFailedStatus(r.status, r.generation)), c.status)
    else
      var stored := w.(disk := w.disk + {path});
      var status := DiskReadyStatus(r.status, r.generation, path);
      match r.spec.ownerId
      case None =>
        PutStatus(stored, name, Some(status.(phase := Failed, databaseSynced := Condition(false, InvalidOwnerId, r.generation))), c.status)
      case Some(ownerId) =>
        var (record, rows) := EnsureRecord(w.rows, Key(ownerId, r.spec.name), r.spec, path, c);
        PutStatus(stored.(rows := rows), name, RecordStatus(status, r.generation, record), c.status)
  }

  function RemoveAll(disk: set<string>, dir: string): set<string> {
    set p | p in disk && !Inside(dir, p)
  }

  function HandleDeletion(w: World, name: string, c: Calls): World
    requires name in w.resources
  {
    var r := w.resources[name];
    var marked := PutStatus(w, name, Some(r.status.(phase := Deleting)), c.status);
    var disk := if r.status.diskPath != "" && c.removeDir then RemoveAll(w.disk, r.status.diskPath) else w.disk;
    var rows := if r.status.databaseId.Some? && c.deleteRow then WithoutId(w.rows, r.status.databaseId.value) else w.rows;
    var resources :=
      if !c.update then marked.resources
      else if r.otherFinalizers then marked.resources[name := marked.resources[name].(finalizer := false)]
      else marked.resources - {name};
    World(resources, disk, rows)
  }

  function Reconcile(root: string, w: World, name: string, c: Calls): World {
    if !c.get || name !in w.resources then w
    else
      var r := w.resources[name];
      if r.deleting then HandleDeletion(w, name, c)
      else if !r.finalizer then
        (if c.update then w.(resources := w.resources[name := r.(finalizer := true)]) else w)
      else if r.status.phase.Unset? then
        PutStatus(w, name, Some(PendingStatus(r.status, r.generation)), c.status)
      else ReconcileLive(root, w, name, c)
  }

  // --- runs -----------------------------------------------------------------------------

  datatype Event =
    | Reconciled(name: string, c: Calls)
    | Created(name: string, spec: Spec, otherFinalizers: bool)
    | Edited(name: string, spec: Spec)
    | Deleted(name: string)                           // the deletion timestamp is set, or there is no finalizer to wait for
    | Outside(disk: set<string>, rows: map<Key, Row>) // anybody else changes disk and database

  function Step(root: string, w: World, e: Event): World {
    match e
    case Reconciled(name, c) => Reconcile(root, w, name, c)
    case Created(name, spec, others) =>
      if name in w.resources then w
      else w.(resources := w.resources[name := Resource(1, false, false, others, spec, NEW_STATUS)])
    case Edited(name, spec) =>
      if name !in w.resources || spec.name != w.resources[name].spec.name then w
      else w.(resources := w.resources[name := w.resources[name].(spec := spec, generation := w.resources[name].generation + 1)])
    case Deleted(name) =>
      if name !in w.resources then w
      else if !w.resources[name].finalizer && !w.resources[name].otherFinalizers then w.(resources := w.resources - {name})
      else w.(resources := w.resources[name := w.resources[name].(deleting := true)])
    case Outside(disk, rows) => w.(disk := disk, rows := rows)
  }

  function Exec(root: string, w: World, es: seq<Event>): World
    decreases |es|
  {
    if es == [] then w else Exec(root, Step(root, w, es[0]), es[1..])
  }

  // --- what the persisted status says ------------------------------------------------------

  predicate True(c: Condition) { c.Condition? && c.status }

  /** What phase Ready implies, and what holds of every persisted status. */
  predicate StatusSound(r: Resource) {
    var s := r.status;
    && s.observedGeneration <= r.generation
    && 0 < r.generation
    && (s.phase.Ready? ==>
          && True(s.diskReady) && True(s.ready) && s.diskPath != ""
          && s.databaseSynced.Condition?
          && (s.databaseSynced.status || s.databaseSynced.reason == CreateFailed))
    && (s.phase.Deleting? ==> r.deleting)
    && (s.phase.Unset? ==> s == NEW_STATUS)
  }

  ghost predicate Sound(w: World) {
    forall name :: name in w.resources ==> StatusSound(w.resources[name])
  }

  /** How a resource's phase may change while the resource exists. */
  predicate PhaseMoves(before: Phase, after: Phase) {
    && (after.Unset? ==> before.Unset?)
    && (after.Pending? ==> before.Unset? || before.Pending?)
    && (before.Deleting? ==> after.Deleting?)
  }

  lemma PathNotEmpty(root: string, spec: Spec)
    ensures PathOf(root, spec) != ""
  {
    assert |PathOf(root, spec)| >= |".git"|;
  }

  lemma PutKeepsSound(w: World, name: string, status: Option<Status>, ok: bool)
    requires Sound(w) && name in w.resources
    requires status.Some? ==>
               && StatusSound(w.resources[name].(status := status.value))
               && PhaseMoves(w.resources[name].status.phase, status.value.phase)
    ensures KeepsSound(w, PutStatus(w, name, status, ok), name)
  {
  }

  /** Every status stays sound, and the one resource's phase does not go back. */
  ghost predicate KeepsSound(w: World, t: World, name: string)
    requires name in w.resources
  {
    && Sound(t)
    && (name in t.resources ==> PhaseMoves(w.resources[name].status.phase, t.resources[name].status.phase))
    && forall other :: other in t.resources && other != name ==> other in w.resources && t.resources[other] == w.resources[other]
  }

  lemma LiveKeepsSound(root: string, w: World, name: string, c: Calls)
    requires Sound(w) && name in w.resources && !w.resources[name].deleting && !w.resources[name].status.phase.Unset?
    ensures KeepsSound(w, ReconcileLive(root, w, name, c), name)
  {
    var r := w.resources[name];
    var path := PathOf(root, r.spec);
    PathNotEmpty(root, r.spec);
    if path !in w.disk && !c.init {
      PutKeepsSound(w, name, Some(DiskFailedStatus(r.status, r.generation)), c.status);
    } else {
      var stored := w.(disk := w.disk + {path});
      var status := DiskReadyStatus(r.status, r.generation, path);
      match r.spec.ownerId
      case None =>
        PutKeepsSound(stored, name, Some(status.(phase := Failed, databaseSynced := Condition(false, InvalidOwnerId, r.generation))), c.status);
      case Some(ownerId) =>
        var (record, rows) := EnsureRecord(w.rows, Key(ownerId, r.spec.name), r.spec, path, c);
        PutKeepsSound(stored.(rows := rows), name, RecordStatus(status, r.generation, record), c.status);
    }
  }

  lemma DeletionKeepsSound(w: World, name: string, c: Calls)
    requires Sound(w) && name in w.resources && w.resources[name].deleting
    ensures KeepsSound(w, HandleDeletion(w, name, c), name)
  {
    PutKeepsSound(w, name, Some(w.resources[name].status.(phase := Deleting)), c.status);
  }

  lemma ReconcileKeepsSound(root: string, w: World, name: string, c: Calls)
    requires Sound(w) && name in w.resources
    ensures KeepsSound(w, Reconcile(root, w, name, c), name)
  {
    var r := w.resources[name];
    if c.get {
      if r.deleting {
        DeletionKeepsSound(w, name, c);
      } else if r.finalizer && r.status.phase.Unset? {
        PutKeepsSound(w, name, Some(PendingStatus(r.status, r.generation)), c.status);
      } else if r.finalizer {
        LiveKeepsSound(root, w, name, c);
      }
    }
  }

  lemma StepKeepsSound(root: string, w: World, e: Event, name: string)
    requires Sound(w)
    ensures Sound(Step(root, w, e))
    ensures name in w.resources && name in Step(root, w, e).resources ==>
              PhaseMoves(w.resources[name].status.phase, Step(root, w, e).resources[name].status.phase)
  {
    if e.Reconciled? && e.name in w.resources {
      ReconcileKeepsSound(root, w, e.name, e.c);
    }
  }

  /** The resource is there before and after every event. */
  ghost predicate Lives(root: string, w: World, es: seq<Event>, name: string)
    decreases |es|
  {
    name in w.resources && (es != [] ==> Lives(root, Step(root, w, es[0]), es[1..], name))
  }

  /** A cluster without resources is sound, whatever disk and database hold. */
  lemma EmptyIsSound(disk: set<string>, rows: map<Key, Row>)
    ensures Sound(World(map[], disk, rows))
  {
  }

  /** Over every run, statuses stay sound and a resource's phase never goes back. */
  lemma {:induction false} PhasesNeverGoBack(root: string, w: World, es: seq<Event>, name: string)
    requires Sound(w)
    ensures Sound(Exec(root, w, es))
    ensures Lives(root, w, es, name) ==>
              name in Exec(root, w, es).resources &&
              PhaseMoves(w.resources[name].status.phase, Exec(root, w, es).resources[name].status.phase)
    decreases |es|
  {
    if es != [] {
      StepKeepsSound(root, w, es[0], name);
      PhasesNeverGoBack(root, Step(root, w, es[0]), es[1..], name);
    }
  }

  // --- convergence ----------------------------------------------------------------------

  /** Every call succeeds and nobody else inserts the row. */
  predicate Calm(c: Calls) {
    c.get && c.update && c.status && c.init && c.lookup && c.insert && c.sync && c.raced.None?
  }

  predicate AllCalm(cs: seq<Calls>) {
    forall i :: 0 <= i < |cs| ==> Calm(cs[i])
  }

  /** Reconcile one resource again and again. */
  function Settle(root: string, w: World, name: string, cs: seq<Calls>): World
    decreases |cs|
  {
    if cs == [] then w else Settle(root, Reconcile(root, w, name, cs[0]), name, cs[1..])
  }

  predicate RowMatches(row: Row, spec: Spec) {
    && row.isPrivate == spec.isPrivate
    && row.defaultBranch == spec.defaultBranch
    && (spec.description != "" ==> row.description == Some(spec.description))
  }

  /** The repository is there on disk and in the database as specified, and the status says so. */
  predicate Converged(root: string, w: World, name: string) {
    && name in w.resources
    && var r, path := w.resources[name], PathOf(root, w.resources[name].spec);
    && r.spec.ownerId.Some? && r.finalizer
    && var key := Key(r.spec.ownerId.value, r.spec.name);
    && path in w.disk
    && key in w.rows && RowMatches(w.rows[key], r.spec)
    && r.status == Status(Ready, path, Some(w.rows[key].id), r.generation,
                          Condition(true, Initialized, r.generation),
                          Condition(true, Synced, r.generation),
                          Condition(true, AllReady, r.generation))
  }

  function KeyOf(spec: Spec): Key
    requires spec.ownerId.Some?
  {
    Key(spec.ownerId.value, spec.name)
  }

  predicate Live(w: World, name: string) {
    && name in w.resources && !w.resources[name].deleting
    && w.resources[name].spec.ownerId.Some?
  }

  /** How many reconciles a live resource needs: a finalizer, an initial status, and the work itself. */
  function Needed(r: Resource): nat {
    (if r.finalizer then 0 else 1) + (if r.status.phase.Unset? then 1 else 0) + 1
  }

  lemma LiveConverges(root: string, w: World, name: string, c: Calls)
    requires Live(w, name) && Calm(c)
    requires w.resources[name].finalizer && !w.resources[name].status.phase.Unset?
    ensures Converged(root, Reconcile(root, w, name, c), name)
  {
  }

  lemma ConvergedIsStable(root: string, w: World, name: string, c: Calls)
    requires Live(w, name) && Calm(c) && Converged(root, w, name)
    ensures Reconcile(root, w, name, c) == w
  {
    var r := w.resources[name];
    var key := Key(r.spec.ownerId.value, r.spec.name);
    assert w.disk + {PathOf(root, r.spec)} == w.disk;
    assert SyncedRow(w.rows[key], r.spec) == w.rows[key];
    assert w.rows[key := w.rows[key]] == w.rows;
    assert ReadyStatus(DiskReadyStatus(r.status, r.generation, PathOf(root, r.spec)), r.generation, w.rows[key].id) == r.status;
    assert w.resources[name := r] == w.resources;
  }

  lemma {:induction false} ConvergedStays(root: string, w: World, name: string, cs: seq<Calls>)
    requires Live(w, name) && AllCalm(cs) && Converged(root, w, name)
    ensures Settle(root, w, name, cs) == w
    decreases |cs|
  {
    if cs != [] {
      ConvergedIsStable(root, w, name, cs[0]);
      ConvergedStays(root, w, name, cs[1..]);
    }
  }

  lemma EarlyStep(root: string, w: World, name: string, c: Calls)
    requires Live(w, name) && Calm(c) && Needed(w.resources[name]) > 1
    ensures var t := Reconcile(root, w, name, c);
            && Live(t, name) && Needed(t.resources[name]) == Needed(w.resources[name]) - 1
            && t.resources[name].spec == w.resources[name].spec
            && t.disk == w.disk && t.rows == w.rows
            && (w.resources[name].status.phase.Unset? ==> !t.resources[name].status.phase.Ready?)
            && (!w.resources[name].status.phase.Unset? ==> t.resources[name].status == w.resources[name].status)
  {
  }

  /**
   From any state of finalizer, status, disk and database, a live resource converges after `Needed`
   calm reconciles, at most three, and from then on nothing changes.  Fewer are not enough, unless
   all that was missing is the finalizer.
   */
  lemma {:induction false} Converges(root: string, w: World, name: string, cs: seq<Calls>)
    requires Live(w, name) && AllCalm(cs)
    ensures 1 <= Needed(w.resources[name]) <= 3
    ensures Needed(w.resources[name]) <= |cs| ==>
              Converged(root, Settle(root, w, name, cs), name) &&
              Settle(root, w, name, cs) == Settle(root, w, name, cs[..Needed(w.resources[name])])
    ensures |cs| < Needed(w.resources[name]) && !w.resources[name].status.phase.Ready? ==>
              !Converged(root, Settle(root, w, name, cs), name)
    decreases |cs|
  {
    var n := Needed(w.resources[name]);
    if cs != [] {
      var t := Reconcile(root, w, name, cs[0]);
      if n == 1 {
        LiveConverges(root, w, name, cs[0]);
        ConvergedStays(root, t, name, cs[1..]);
        assert cs[..1] == [cs[0]];
      } else {
        EarlyStep(root, w, name, cs[0]);
        Converges(root, t, name, cs[1..]);
        if n <= |cs| {
          assert cs[..n][0] == cs[0] && cs[..n][1..] == cs[1..][..n - 1];
        }
      }
    }
  }

  /** A live resource past its first reconciles, and a reconcile that gets to the database stage and persists. */
  predicate Reaches(root: string, w: World, name: string, c: Calls) {
    && Live(w, name) && w.resources[name].finalizer && !w.resources[name].status.phase.Unset?
    && c.get && c.status && (c.init || PathOf(root, w.resources[name].spec) in w.disk)
  }

  predicate GetsRecord(w: World, key: Key, c: Calls) {
    c.lookup && (key in w.rows || (c.insert && (c.raced.Some? ==> c.reread)))
  }

  /** The row the sync acts on, if it is called at all: a lost insert and its reread skip it. */
  function RowBefore(w: World, key: Key, c: Calls): Option<Row> {
    if key in w.rows then Some(w.rows[key]) else c.raced
  }

  /**
   Every reconcile that gets a record reports Ready and Synced, whether or not a sync failed or was
   called.  The row matches the spec exactly if it was inserted, or was found and synced, or matched before.
   */
  lemma FailedSyncIsReported(root: string, w: World, name: string, c: Calls)
    requires Reaches(root, w, name, c) && GetsRecord(w, KeyOf(w.resources[name].spec), c)
    ensures var r, t := w.resources[name], Reconcile(root, w, name, c);
            var key := KeyOf(r.spec);
            var before := RowBefore(w, key, c);
            && name in t.resources && key in t.rows
            && t.resources[name].status.phase.Ready?
            && t.resources[name].status.observedGeneration == r.generation
            && t.resources[name].status.databaseSynced == Condition(true, Synced, r.generation)
            && (RowMatches(t.rows[key], r.spec) <==>
                before.None? || (key in w.rows && c.sync) || RowMatches(before.value, r.spec))
  {
  }

  /** The description follows the spec exactly if the row is new, or already had it, or a sync sent a description that is not empty. */
  lemma DescriptionSyncedIff(root: string, w: World, name: string, c: Calls)
    requires Reaches(root, w, name, c) && GetsRecord(w, KeyOf(w.resources[name].spec), c)
    ensures var r, t := w.resources[name], Reconcile(root, w, name, c);
            var key := KeyOf(r.spec);
            var before := RowBefore(w, key, c);
            && key in t.rows
            && (t.rows[key].description == NonEmpty(r.spec.description) <==>
                || before.None?
                || (key in w.rows && c.sync && r.spec.description != "")
                || before.value.description == NonEmpty(r.spec.description))
  {
  }

  /** Only the named key's row may differ. */
  predicate OtherRowsKept(before: map<Key, Row>, after: map<Key, Row>, key: Key) {
    && (forall k :: k in before && k != key ==> k in after && after[k] == before[k])
    && (forall k :: k in after && k != key ==> k in before)
  }

  /** A row that is inserted names the directory that was made, and holds what the spec says under the id the database gave. */
  lemma InsertedRow(root: string, w: World, name: string, c: Calls)
    requires Reaches(root, w, name, c) && GetsRecord(w, KeyOf(w.resources[name].spec), c)
    requires RowBefore(w, KeyOf(w.resources[name].spec), c).None?
    ensures var spec, t := w.resources[name].spec, Reconcile(root, w, name, c);
            var key, path := KeyOf(spec), RepoPath(root, spec.owner, spec.name);
            && path in t.disk && (forall p :: p in t.disk && p != path <==> p in w.disk && p != path)
            && key in t.rows && OtherRowsKept(w.rows, t.rows, key)
            && t.rows[key].id == c.newId && t.rows[key].diskPath == path
            && t.rows[key].isPrivate == spec.isPrivate && t.rows[key].defaultBranch == spec.defaultBranch
            && t.rows[key].description == (if spec.description == "" then None else Some(spec.description))
            && t.resources[name].status.diskPath == path && t.resources[name].status.databaseId == Some(c.newId)
  {
  }

  /** A row that was found keeps its id and its directory; one that somebody else inserted stays as it is. */
  lemma FoundRow(root: string, w: World, name: string, c: Calls)
    requires Reaches(root, w, name, c) && GetsRecord(w, KeyOf(w.resources[name].spec), c)
    requires RowBefore(w, KeyOf(w.resources[name].spec), c).Some?
    ensures var spec, t := w.resources[name].spec, Reconcile(root, w, name, c);
            var key := KeyOf(spec);
            var row := RowBefore(w, key, c).value;
            && key in t.rows && OtherRowsKept(w.rows, t.rows, key)
            && t.rows[key].id == row.id && t.rows[key].diskPath == row.diskPath
            && t.resources[name].status.databaseId == Some(row.id)
            && (key !in w.rows || !c.sync ==> t.rows[key] == row)
            && (key in w.rows && c.sync && spec.description == "" ==> t.rows[key].description == row.description)
  {
  }

  // --- what a reconcile that does not get so far leaves --------------------------------------------

  /** The only thing that changes is the resource's status. */
  predicate OnlyStatus(w: World, t: World, name: string)
    requires name in w.resources
  {
    && name in t.resources
    && t.resources == w.resources[name := w.resources[name].(status := t.resources[name].status)]
  }

  predicate AtWork(w: World, name: string) {
    && name in w.resources && !w.resources[name].deleting && w.resources[name].finalizer
    && !w.resources[name].status.phase.Unset?
  }

  /** A reconcile that cannot read the resource, or finds none, does nothing. */
  lemma UnreadDoesNothing(root: string, w: World, name: string, c: Calls)
    requires !c.get || name !in w.resources
    ensures Reconcile(root, w, name, c) == w
  {
  }

  /** The first reconcile of a live resource adds the finalizer and nothing else, or changes nothing. */
  lemma FinalizerFirst(root: string, w: World, name: string, c: Calls)
    requires c.get && name in w.resources && !w.resources[name].deleting && !w.resources[name].finalizer
    ensures var t := Reconcile(root, w, name, c);
            && t.disk == w.disk && t.rows == w.rows
            && t.resources == (if c.update then w.resources[name := w.resources[name].(finalizer := true)] else w.resources)
  {
  }

  /** The second says that nothing is there yet. */
  lemma PendingSecond(root: string, w: World, name: string, c: Calls)
    requires c.get && name in w.resources && !w.resources[name].deleting && w.resources[name].finalizer
    requires w.resources[name].status.phase.Unset?
    ensures var r, t := w.resources[name], Reconcile(root, w, name, c);
            && OnlyStatus(w, t, name) && t.disk == w.disk && t.rows == w.rows
            && var s := t.resources[name].status;
            && (!c.status ==> s == r.status)
            && (c.status ==>
                  && s.phase.Pending? && !True(s.diskReady) && !True(s.databaseSynced) && !True(s.ready)
                  && s.diskReady == s.databaseSynced == s.ready == Condition(false, Initializing, r.generation)
                  && s.diskPath == r.status.diskPath && s.databaseId == r.status.databaseId
                  && s.observedGeneration == r.status.observedGeneration)
  {
  }

  /** A directory that cannot be made fails the resource, and the database is not touched. */
  lemma DiskFails(root: string, w: World, name: string, c: Calls)
    requires AtWork(w, name) && c.get && PathOf(root, w.resources[name].spec) !in w.disk && !c.init
    ensures var r, t := w.resources[name], Reconcile(root, w, name, c);
            && OnlyStatus(w, t, name) && t.disk == w.disk && t.rows == w.rows
            && var s := t.resources[name].status;
            && (!c.status ==> s == r.status)
            && (c.status ==>
                  && s.phase.Failed? && s.diskReady == Condition(false, InitFailed, r.generation)
                  && s.databaseSynced == r.status.databaseSynced && s.ready == r.status.ready
                  && s.diskPath == r.status.diskPath && s.databaseId == r.status.databaseId
                  && s.observedGeneration == r.status.observedGeneration)
  {
  }

  /** What the status says of the disk once the directory is there. */
  predicate DiskSaid(root: string, r: Resource, s: Status) {
    && s.diskPath == RepoPath(root, r.spec.owner, r.spec.name)
    && s.diskReady == Condition(true, Initialized, r.generation)
  }

  /** An owner id that does not parse fails the resource, after the directory was made; its Ready condition stays as it was. */
  lemma OwnerFails(root: string, w: World, name: string, c: Calls)
    requires AtWork(w, name) && c.get && w.resources[name].spec.ownerId.None?
    requires c.init || PathOf(root, w.resources[name].spec) in w.disk
    ensures var r, t := w.resources[name], Reconcile(root, w, name, c);
            && OnlyStatus(w, t, name) && t.disk == w.disk + {PathOf(root, r.spec)} && t.rows == w.rows
            && var s := t.resources[name].status;
            && (!c.status ==> s == r.status)
            && (c.status ==>
                  && s.phase.Failed? && DiskSaid(root, r, s)
                  && s.databaseSynced == Condition(false, InvalidOwnerId, r.generation)
                  && s.ready == r.status.ready && s.databaseId == r.status.databaseId
                  && s.observedGeneration == r.status.observedGeneration)
  {
  }

  /**
   A lookup that fails leaves the status unwritten; a create that fails is reported, and the phase
   stays what it was.
   */
  lemma RecordFails(root: string, w: World, name: string, c: Calls)
    requires AtWork(w, name) && c.get && w.resources[name].spec.ownerId.Some?
    requires c.init || PathOf(root, w.resources[name].spec) in w.disk
    requires !GetsRecord(w, KeyOf(w.resources[name].spec), c)
    ensures var r, t := w.resources[name], Reconcile(root, w, name, c);
            && OnlyStatus(w, t, name) && t.disk == w.disk + {PathOf(root, r.spec)}
            && t.rows == (if c.lookup && c.raced.Some? then w.rows[KeyOf(r.spec) := c.raced.value] else w.rows)
            && var s := t.resources[name].status;
            && (!c.lookup || !c.status ==> s == r.status)
            && (c.lookup && c.status ==>
                  && DiskSaid(root, r, s)
                  && s.databaseSynced == Condition(false, CreateFailed, r.generation)
                  && s.phase == r.status.phase && s.ready == r.status.ready && s.databaseId == r.status.databaseId
                  && s.observedGeneration == r.status.observedGeneration)
  {
  }

  /** A reconcile that gets a record but cannot write its status has changed disk and rows all the same. */
  lemma UnwrittenStatus(root: string, w: World, name: string, c: Calls)
    requires AtWork(w, name) && w.resources[name].spec.ownerId.Some?
    ensures Reconcile(root, w, name, c.(status := false)).resources == w.resources
    ensures Reconcile(root, w, name, c.(status := false)).disk == Reconcile(root, w, name, c).disk
    ensures Reconcile(root, w, name, c.(status := false)).rows == Reconcile(root, w, name, c).rows
  {
  }

  const ALL_FINE := Calls(true, true, true, true, true, true, true, true, true, true, 1, None)

  function Sample(description: string, isPrivate: bool, status: Status): Resource {
    Resource(1, false, true, false, Spec("ann", Some(7), "repo", description, isPrivate, "main"), status)
  }

  function OneResource(r: Resource, rows: map<Key, Row>): World {
    World(map["ann-repo" := r], {}, rows)
  }

  /**
   A private repository reported Ready and Synced with a public row: found and not synced, or, with
   every call succeeding, inserted by somebody else in between.
   */
  lemma ReadyOverAnotherRow(root: string, raced: bool)
    ensures var key, row := Key(7, "repo"), Row(9, None, false, "main", "elsewhere");
            var w := OneResource(Sample("", true, PendingStatus(NEW_STATUS, 1)), if raced then map[] else map[key := row]);
            var c := if raced then ALL_FINE.(raced := Some(row)) else ALL_FINE.(sync := false);
            var t := Reconcile(root, w, "ann-repo", c);
            && "ann-repo" in t.resources && t.resources["ann-repo"].status.phase.Ready?
            && t.resources["ann-repo"].status.databaseSynced == Condition(true, Synced, 1)
            && key in t.rows && t.rows[key] == row && !RowMatches(row, w.resources["ann-repo"].spec)
  {
  }

  /** A description that was emptied stays in the row, though every call succeeds. */
  lemma EmptiedDescriptionStays(root: string)
    ensures var key, row := Key(7, "repo"), Row(9, Some("old"), true, "main", "elsewhere");
            var w := OneResource(Sample("", true, PendingStatus(NEW_STATUS, 1)), map[key := row]);
            var t := Reconcile(root, w, "ann-repo", ALL_FINE);
            && "ann-repo" in t.resources && t.resources["ann-repo"].status.phase.Ready?
            && key in t.rows && t.rows[key].description == Some("old")
  {
  }

  // --- deletion ----------------------------------------------------------------------------

  /** The ids of rows are their primary key. */
  ghost predicate UniqueIds(rows: map<Key, Row>) {
    forall k, l :: k in rows && l in rows && rows[k].id == rows[l].id ==> k == l
  }

  /** Those of the calls for a resource being deleted that find it. */
  function Attempts(cs: seq<Calls>, others: bool): seq<Calls>
    decreases |cs|
  {
    if cs == [] then []
    else if !cs[0].get then Attempts(cs[1..], others)
    else [cs[0]] + if cs[0].update && !others then [] else Attempts(cs[1..], others)
  }

  datatype Act = RemovesDir | DeletesRow | StripsFinalizer

  predicate Does(c: Calls, act: Act) {
    match act case RemovesDir => c.removeDir case DeletesRow => c.deleteRow case StripsFinalizer => c.update
  }

  ghost predicate Any(cs: seq<Calls>, act: Act) {
    exists i :: 0 <= i < |cs| && Does(cs[i], act)
  }

  /** Removing a directory removes it and everything below it, and nothing else. */
  lemma RemovesTree(disk: set<string>, dir: string, path: string)
    ensures path in RemoveAll(disk, dir) <==> path in disk && path != dir && !(dir + "/" <= path)
  {
  }

  lemma AnySplit(c: Calls, cs: seq<Calls>, act: Act)
    ensures Any([c] + cs, act) <==> Does(c, act) || Any(cs, act)
  {
    if Does(c, act) {
      assert Does(([c] + cs)[0], act);
    }
    if Any(cs, act) {
      var i :| 0 <= i < |cs| && Does(cs[i], act);
      assert Does(([c] + cs)[i + 1], act);
    }
  }

  /** What one attempt does to disk and rows, whatever its status and finalizer writes do. */
  lemma OneAttempt(root: string, w: World, name: string, c: Calls)
    requires name in w.resources && w.resources[name].deleting && c.get
    ensures var r, t := w.resources[name], Reconcile(root, w, name, c);
            && t.disk == (if c.removeDir && r.status.diskPath != "" then RemoveAll(w.disk, r.status.diskPath) else w.disk)
            && t.rows == (if c.deleteRow && r.status.databaseId.Some? then WithoutId(w.rows, r.status.databaseId.value) else w.rows)
            && (name in t.resources <==> !c.update || r.otherFinalizers)
            && (name in t.resources ==>
                  && t.resources[name].deleting
                  && t.resources[name].otherFinalizers == r.otherFinalizers
                  && t.resources[name].status.diskPath == r.status.diskPath
                  && t.resources[name].status.databaseId == r.status.databaseId)
  {
  }

  /** What stays of a resource after one attempt: its phase says Deleting if it could be written, and the finalizer is gone if it could. */
  lemma AttemptMarks(root: string, w: World, name: string, c: Calls)
    requires name in w.resources && w.resources[name].deleting && c.get
    ensures var r, t := w.resources[name], Reconcile(root, w, name, c);
            && t.resources - {name} == w.resources - {name}
            && (name in t.resources ==>
                  t.resources[name] == r.(finalizer := if c.update then false else r.finalizer,
                                          status := if c.status then r.status.(phase := Deleting) else r.status))
  {
  }

  /** A call that finds no resource does nothing. */
  lemma {:induction false} GoneStays(root: string, w: World, name: string, cs: seq<Calls>)
    requires name !in w.resources
    ensures Settle(root, w, name, cs) == w
    decreases |cs|
  {
    if cs != [] {
      GoneStays(root, w, name, cs[1..]);
    }
  }

  function AfterRemoval(disk: set<string>, dir: string, removed: bool): set<string> {
    if removed && dir != "" then RemoveAll(disk, dir) else disk
  }

  function AfterDelete(rows: map<Key, Row>, id: Option<int>, deleted: bool): map<Key, Row> {
    if deleted && id.Some? then WithoutId(rows, id.value) else rows
  }

  /**
   What any number of attempts with any failures leave: the recorded directory goes exactly if one
   attempt's removal succeeded, the recorded row if one attempt's delete did, and nothing outside
   them changes.  As the finalizer goes with the first attempt that can write it, what that attempt
   fails to remove stays; and what the status never recorded is not removed at all.
   */
  lemma {:induction false} DeletionLeaves(root: string, w: World, name: string, cs: seq<Calls>)
    requires name in w.resources && w.resources[name].deleting
    ensures var r, t := w.resources[name], Settle(root, w, name, cs);
            var tries := Attempts(cs, r.otherFinalizers);
            && t.disk == AfterRemoval(w.disk, r.status.diskPath, Any(tries, RemovesDir))
            && t.rows == AfterDelete(w.rows, r.status.databaseId, Any(tries, DeletesRow))
            && (name in t.resources <==> r.otherFinalizers || !Any(tries, StripsFinalizer))
    decreases |cs|
  {
    var r := w.resources[name];
    if cs != [] && !cs[0].get {
      DeletionLeaves(root, w, name, cs[1..]);
    } else if cs != [] {
      var c, t := cs[0], Reconcile(root, w, name, cs[0]);
      OneAttempt(root, w, name, c);
      var rest := if c.update && !r.otherFinalizers then [] else Attempts(cs[1..], r.otherFinalizers);
      AnySplit(c, rest, RemovesDir);
      AnySplit(c, rest, DeletesRow);
      AnySplit(c, rest, StripsFinalizer);
      RemovalTwice(w.disk, r.status.diskPath, c.removeDir, Any(rest, RemovesDir));
      DeleteTwice(w.rows, r.status.databaseId, c.deleteRow, Any(rest, DeletesRow));
      if name in t.resources {
        DeletionLeaves(root, t, name, cs[1..]);
      } else {
        GoneStays(root, t, name, cs[1..]);
      }
    }
  }

  lemma RemovalTwice(disk: set<string>, dir: string, first: bool, then_: bool)
    ensures AfterRemoval(AfterRemoval(disk, dir, first), dir, then_) == AfterRemoval(disk, dir, first || then_)
  {
  }

  lemma DeleteTwice(rows: map<Key, Row>, id: Option<int>, first: bool, then_: bool)
    ensures AfterDelete(AfterDelete(rows, id, first), id, then_) == AfterDelete(rows, id, first || then_)
  {
    if id.Some? { WithoutTwice(rows, id.value); }
  }

  /**
   A deletion in which every call succeeds can leave everything: the reconcile that made directory
   and row could not write its status.
   */
  lemma DeletionOrphans(root: string)
    ensures var spec := Sample("", true, NEW_STATUS).spec;
            var w := OneResource(Sample("", true, PendingStatus(NEW_STATUS, 1)), map[]);
            var made := Reconcile(root, w, "ann-repo", ALL_FINE.(status := false));
            var t := Reconcile(root, Step(root, made, Deleted("ann-repo")), "ann-repo", ALL_FINE);
            && "ann-repo" !in t.resources
            && PathOf(root, spec) in t.disk
            && Key(7, "repo") in t.rows
  {
  }

  /** And one whose status names both can leave them too, when the removals fail and the finalizer goes. */
  lemma DeletionLeaks(root: string)
    ensures var spec := Sample("", true, NEW_STATUS).spec;
            var w := OneResource(Sample("", true, PendingStatus(NEW_STATUS, 1)), map[]);
            var made := Reconcile(root, w, "ann-repo", ALL_FINE);
            var t := Reconcile(root, Step(root, made, Deleted("ann-repo")), "ann-repo", ALL_FINE.(removeDir := false, deleteRow := false));
            && "ann-repo" !in t.resources
            && PathOf(root, spec) in t.disk
            && Key(7, "repo") in t.rows
  {
  }

  lemma WithoutTwice(rows: map<Key, Row>, id: int)
    ensures WithoutId(WithoutId(rows, id), id) == WithoutId(rows, id)
  {
  }

  lemma WithoutOnlyRow(rows: map<Key, Row>, key: Key)
    requires UniqueIds(rows) && key in rows
    ensures WithoutId(rows, rows[key].id) == rows - {key}
  {
  }

  /** The status names the directory and the row of the resource's spec. */
  predicate Recorded(root: string, w: World, name: string) {
    && name in w.resources
    && var r := w.resources[name];
    && r.spec.ownerId.Some?
    && var key := Key(r.spec.ownerId.value, r.spec.name);
    && r.status.diskPath == PathOf(root, r.spec)
    && key in w.rows && r.status.databaseId == Some(w.rows[key].id)
  }

  /** Every reconcile that persists Ready records what it found, whoever inserted the row and whether or not it was synced. */
  lemma ReadyIsRecorded(root: string, w: World, name: string, c: Calls)
    requires Live(w, name) && w.resources[name].finalizer && !w.resources[name].status.phase.Unset?
    requires c.get && c.status && (c.init || PathOf(root, w.resources[name].spec) in w.disk)
    ensures var r, t := w.resources[name], Reconcile(root, w, name, c);
            var key := Key(r.spec.ownerId.value, r.spec.name);
            (EnsureRecord(w.rows, key, r.spec, PathOf(root, r.spec), c).0.Have? <==>
              c.lookup && (key in w.rows || (c.insert && (c.raced.Some? ==> c.reread)))) &&
            (EnsureRecord(w.rows, key, r.spec, PathOf(root, r.spec), c).0.Have? ==>
              Recorded(root, t, name) && t.resources[name].status.phase.Ready? && PathOf(root, r.spec) in t.disk)
  {
  }

  /** No directory of another slug-named repository is touched, nor anything in one. */
  ghost predicate OthersKept(root: string, spec: Spec, before: set<string>, after: set<string>) {
    forall owner, repo, path | IsSlug(owner) && IsSlug(repo) && (owner != spec.owner || repo != spec.name) ::
      path in before && Inside(RepoPath(root, owner, repo), path) ==> path in after
  }

  /**
   A deletion of what the status names, whose disk and store calls succeed, takes the directory and
   the row away no later than the finalizer, takes no other row, and takes no directory of another
   slug-named repository nor anything in one.
   */
  lemma RecordedDeletion(root: string, w: World, name: string, c: Calls)
    requires Recorded(root, w, name) && w.resources[name].deleting && UniqueIds(w.rows)
    requires IsSlug(w.resources[name].spec.owner) && IsSlug(w.resources[name].spec.name)
    requires c.get && c.removeDir && c.deleteRow
    ensures var r, t := w.resources[name], Reconcile(root, w, name, c);
            && PathOf(root, r.spec) !in t.disk
            && t.rows == w.rows - {Key(r.spec.ownerId.value, r.spec.name)}
            && t.disk <= w.disk
            && OthersKept(root, r.spec, w.disk, t.disk)
  {
    var r, t := w.resources[name], Reconcile(root, w, name, c);
    PathNotEmpty(root, r.spec);
    OneAttempt(root, w, name, c);
    WithoutOnlyRow(w.rows, Key(r.spec.ownerId.value, r.spec.name));
    forall owner, repo, path | IsSlug(owner) && IsSlug(repo) && (owner != r.spec.owner || repo != r.spec.name) &&
        path in w.disk && Inside(RepoPath(root, owner, repo), path)
      ensures path in t.disk
    {
      if Inside(r.status.diskPath, path) {
        InsideNested(r.status.diskPath, RepoPath(root, owner, repo), path);
        if Inside(r.status.diskPath, RepoPath(root, owner, repo)) {
          PathsApart(root, r.spec.owner, r.spec.name, owner, repo);
        } else {
          PathsApart(root, owner, repo, r.spec.owner, r.spec.name);
        }
      }
    }
  }

  /** What further reconciles keep: the status names directory and row, and nothing is taken away. */
  ghost predicate StillRecorded(root: string, w: World, t: World, name: string)
    requires name in w.resources
  {
    var r := w.resources[name];
    && Recorded(root, t, name) && !t.resources[name].deleting
    && t.resources[name].spec == r.spec && t.resources[name].otherFinalizers == r.otherFinalizers
    && (r.finalizer ==> t.resources[name].finalizer)
    && w.disk <= t.disk <= w.disk + {PathOf(root, r.spec)} && SameIds(w.rows, t.rows)
  }

  lemma OneMoreReconcile(root: string, w: World, name: string, c: Calls)
    requires Recorded(root, w, name) && !w.resources[name].deleting
    ensures StillRecorded(root, w, Reconcile(root, w, name, c), name)
  {
    LiveKeepsRecorded(root, w, name, c);
  }

  /** Reconciles of a live resource, whatever fails, go on naming the directory and the row, and touch no other. */
  lemma {:induction false} RecordedStays(root: string, w: World, name: string, cs: seq<Calls>)
    requires Recorded(root, w, name) && !w.resources[name].deleting
    ensures StillRecorded(root, w, Settle(root, w, name, cs), name)
    decreases |cs|
  {
    if cs != [] {
      OneMoreReconcile(root, w, name, cs[0]);
      RecordedStays(root, Reconcile(root, w, name, cs[0]), name, cs[1..]);
    }
  }

  predicate SameIds(rows: map<Key, Row>, rows': map<Key, Row>) {
    rows'.Keys == rows.Keys && forall k :: k in rows ==> rows'[k].id == rows[k].id
  }

  /** On a row that is there the database stage carries its id, or none, and changes no id. */
  lemma FoundKeepsIds(rows: map<Key, Row>, key: Key, spec: Spec, diskPath: string, c: Calls)
    requires key in rows
    ensures var (record, rows') := EnsureRecord(rows, key, spec, diskPath, c);
            SameIds(rows, rows') && (record == LookupError || record == Have(rows[key].id))
  {
  }

  lemma SameIdsUnique(rows: map<Key, Row>, rows': map<Key, Row>)
    requires UniqueIds(rows) && SameIds(rows, rows')
    ensures UniqueIds(rows')
  {
  }

  lemma LiveKeepsRecorded(root: string, w: World, name: string, c: Calls)
    requires Recorded(root, w, name)
    ensures var r, t := w.resources[name], ReconcileLive(root, w, name, c);
            && Recorded(root, t, name) && SameIds(w.rows, t.rows)
            && t.resources[name] == r.(status := t.resources[name].status)
            && t.disk <= w.disk + {PathOf(root, r.spec)} && w.disk <= t.disk
  {
    var r := w.resources[name];
    FoundKeepsIds(w.rows, KeyOf(r.spec), r.spec, PathOf(root, r.spec), c);
  }

  /**
   From a reconcile that persisted Ready, any further reconciles of the resource with any failures, its
   deletion, and a deletion attempt whose disk and store calls succeed: the directory and the row are
   gone no later than the finalizer, no other row is, and no other slug-named repository is touched.
   */
  lemma DeletionIsCompleteAndFramed(root: string, w: World, name: string, ready: Calls, cs: seq<Calls>, c: Calls)
    requires Reaches(root, w, name, ready) && GetsRecord(w, KeyOf(w.resources[name].spec), ready)
    requires UniqueIds(Reconcile(root, w, name, ready).rows)
    requires IsSlug(w.resources[name].spec.owner) && IsSlug(w.resources[name].spec.name)
    requires c.get && c.removeDir && c.deleteRow
    ensures var spec := w.resources[name].spec;
            var before := Settle(root, Reconcile(root, w, name, ready), name, cs);
            var t := Reconcile(root, Step(root, before, Deleted(name)), name, c);
            && PathOf(root, spec) !in t.disk
            && t.rows == before.rows - {KeyOf(spec)} && KeyOf(spec) in before.rows
            && t.disk <= before.disk
            && OthersKept(root, spec, before.disk, t.disk)
            && (name in t.resources <==> !c.update || w.resources[name].otherFinalizers)
  {
    var first := Reconcile(root, w, name, ready);
    ReadyIsRecorded(root, w, name, ready);
    RecordedStays(root, first, name, cs);
    SameIdsUnique(first.rows, Settle(root, first, name, cs).rows);
    var deleted := Step(root, Settle(root, first, name, cs), Deleted(name));
    RecordedDeletion(root, deleted, name, c);
    OneAttempt(root, deleted, name, c);
  }

  /** Two directories that share a path are nested. */
  lemma InsideNested(dir: string, dir': string, path: string)
    requires Inside(dir, path) && Inside(dir', path)
    ensures Inside(dir, dir') || Inside(dir', dir)
  {
    if |dir| < |dir'| {
      assert dir == path[..|dir|] == dir'[..|dir|];
      assert dir + "/" == path[..|dir| + 1] == dir'[..|dir| + 1];
    } else if |dir'| < |dir| {
      assert dir' == path[..|dir'|] == dir[..|dir'|];
      assert dir' + "/" == path[..|dir'| + 1] == dir[..|dir'| + 1];
    } else {
      assert dir == path[..|dir|] == dir';
    }
  }

  // --- the controller ------------------------------------------------------------------------

  datatype Lookup = Found(row: Row) | NoRow | StoreError

  class Controller {
    const root: string
    var resources: map<string, Resource>
    var disk: set<string>
    var rows: map<Key, Row>

    ghost function View(): World
      reads this
    {
      World(resources, disk, rows)
    }

    constructor (root: string)
      ensures View() == World(map[], {}, map[]) && this.root == root
    {
      this.root := root;
      resources, disk, rows := map[], {}, map[];
    }

    method GetRepoByOwnerAndName(key: Key, ok: bool) returns (found: Lookup)
      ensures !ok <==> found.StoreError?
      ensures found.NoRow? ==> key !in rows
      ensures found.Found? ==> key in rows && found.row == rows[key]
    {
      found := if !ok then StoreError else if key in rows then Found(rows[key]) else NoRow;
    }

    method UpdateStatus(name: string, status: Status, ok: bool)
      requires name in resources
      modifies this`resources
      ensures View() == PutStatus(old(View()), name, Some(status), ok)
    {
      if ok {
        resources := resources[name := resources[name].(status := status)];
      }
    }

    /** Insert; on a conflict with another reconcile or a handler, read again. */
    method CreateDbRecord(key: Key, spec: Spec, diskPath: string, c: Calls) returns (found: Lookup)
      requires c.lookup && key !in rows
      modifies this`rows
      ensures !found.NoRow?
      ensures (if found.Found? then Have(found.row.id) else CreateError, rows) == EnsureRecord(old(rows), key, spec, diskPath, c)
    {
      if c.raced.Some? {
        rows := rows[key := c.raced.value];
      }
      if !c.insert {
        found := StoreError;
      } else if key in rows {
        found := GetRepoByOwnerAndName(key, c.reread);
      } else {
        rows := rows[key := NewRow(c.newId, spec, diskPath)];
        found := Found(rows[key]);
      }
    }

    method SyncDbRecord(key: Key, spec: Spec, ok: bool)
      requires key in rows
      modifies this`rows
      ensures rows == if ok then old(rows)[key := SyncedRow(old(rows)[key], spec)] else old(rows)
    {
      if ok {
        var row := rows[key].(isPrivate := spec.isPrivate, defaultBranch := spec.defaultBranch);
        if spec.description != "" {
          row := row.(description := Some(spec.description));
        }
        rows := rows[key := row];
      }
    }

    method Deletion(name: string, c: Calls)
      requires name in resources
      modifies this
      ensures View() == HandleDeletion(old(View()), name, c)
    {
      var repo := resources[name];
      UpdateStatus(name, repo.status.(phase := Deleting), c.status);
      if repo.status.diskPath != "" && c.removeDir {
        disk := RemoveAll(disk, repo.status.diskPath);
      }
      if repo.status.databaseId.Some? && c.deleteRow {
        rows := WithoutId(rows, repo.status.databaseId.value);
      }
      if c.update {
        if repo.otherFinalizers {
          resources := resources[name := resources[name].(finalizer := false)];
        } else {
          resources := resources - {name};
        }
      }
    }

    method EnsureDisk(path: string, c: Calls) returns (ok: bool)
      modifies this`disk
      ensures ok == (path in old(disk) || c.init)
      ensures disk == if ok then old(disk) + {path} else old(disk)
    {
      ok := true;
      if path !in disk {
        ok := c.init;
        if ok {
          disk := disk + {path};
        }
      }
    }

    method EnsureDatabase(key: Key, spec: Spec, diskPath: string, c: Calls) returns (record: Record)
      modifies this`rows
      ensures (record, rows) == EnsureRecord(old(rows), key, spec, diskPath, c)
    {
      var found := GetRepoByOwnerAndName(key, c.lookup);
      match found {
        case StoreError =>
          record := LookupError;
        case NoRow =>
          found := CreateDbRecord(key, spec, diskPath, c);
          record := if found.Found? then Have(found.row.id) else CreateError;
        case Found(row) =>
          SyncDbRecord(key, spec, c.sync);
          record := Have(row.id);
      }
    }

    method ReconcileRequest(name: string, c: Calls)
      modifies this
      ensures View() == Reconcile(root, old(View()), name, c)
    {
      if !c.get || name !in resources {
        return;
      }
      var repo := resources[name];
      if repo.deleting {
        Deletion(name, c);
        return;
      }
      if !repo.finalizer {
        if c.update {
          resources := resources[name := repo.(finalizer := true)];
        }
        return;
      }
      var status, generation := repo.status, repo.generation;
      if status.phase.Unset? {
        status := status.(phase := Pending,
          diskReady := Condition(false, Initializing, generation),
          databaseSynced := Condition(false, Initializing, generation),
          ready := Condition(false, Initializing, generation));
        UpdateStatus(name, status, c.status);
        return;
      }
      var diskPath := RepoPath(root, repo.spec.owner, repo.spec.name);
      var ok := EnsureDisk(diskPath, c);
      if !ok {
        UpdateStatus(name, status.(phase := Failed, diskReady := Condition(false, InitFailed, generation)), c.status);
        return;
      }
      status := status.(diskPath := diskPath, diskReady := Condition(true, Initialized, generation));
      if repo.spec.ownerId.None? {
        UpdateStatus(name, status.(phase := Failed, databaseSynced := Condition(false, InvalidOwnerId, generation)), c.status);
        return;
      }
      var record := EnsureDatabase(Key(repo.spec.ownerId.value, repo.spec.name), repo.spec, diskPath, c);
      match record
      case LookupError =>
      case CreateError =>
        UpdateStatus(name, status.(databaseSynced := Condition(false, CreateFailed, generation)), c.status);
      case Have(id) =>
        status := status.(databaseId := Some(id), databaseSynced := Condition(true, Synced, generation));
        status := status.(phase := Ready, observedGeneration := generation, ready := Condition(true, AllReady, generation));
        UpdateStatus(name, status, c.status);
    }
  }
}
