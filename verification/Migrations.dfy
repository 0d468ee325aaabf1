/**
 The migration runner: concurrent runners over one database, with crashes anywhere.

 A script is executed in a transaction together with the record of its filename, which is the
 primary key.  A script that itself holds a COMMIT ends that transaction early: its effect is
 committed on its own, and the record follows in a step of its own.
 */
module Migrations {
  import opened Options

  // --- the directory --------------------------------------------------------------------

  datatype Entry = Entry(name: string, isDir: bool)

  /** Go's order on strings. */
  predicate Less(a: string, b: string) {
    if b == "" then false
    else if a == "" then true
    else a[0] < b[0] || (a[0] == b[0] && Less(a[1..], b[1..]))
  }

  predicate IsSql(e: Entry) {
    !e.isDir && |e.name| >= 4 && e.name[|e.name| - 4..] == ".sql"
  }

  predicate Sorted(names: seq<string>) {
    forall i, j :: 0 <= i < j < |names| ==> Less(names[i], names[j])
  }

  lemma {:induction false} LessTotal(a: string, b: string)
    ensures Less(a, b) || a == b || Less(b, a)
    ensures !(Less(a, b) && Less(b, a)) && !Less(a, a)
  {
    if a != "" {
      LessTotal(a[1..], a[1..]);
    }
    if a != "" && b != "" {
      LessTotal(a[1..], b[1..]);
      assert a[0] == b[0] && a[1..] == b[1..] ==> a == [a[0]] + a[1..] == [b[0]] + b[1..] == b;
    }
  }

  lemma {:induction false} LessTransitive(a: string, b: string, c: string)
    requires Less(a, b) && Less(b, c)
    ensures Less(a, c)
  {
    if a != "" && b != "" && c != "" && a[0] == b[0] && b[0] == c[0] {
      LessTransitive(a[1..], b[1..], c[1..]);
    }
  }

  /** Lexicographic order, said without recursion: a proper prefix, or smaller where they first differ. */
  ghost predicate Lexicographic(a: string, b: string) {
    a < b || exists k :: SmallerAt(a, b, k)
  }

  predicate SmallerAt(a: string, b: string, k: int) {
    0 <= k < |a| && k < |b| && a[..k] == b[..k] && a[k] < b[k]
  }

  lemma SameStart(a: string, b: string, k: int)
    requires SmallerAt(a, b, k) && k > 0
    ensures a[0] == b[0]
  {
    assert a[..k][0] == a[0] && b[..k][0] == b[0];
  }

  lemma {:induction false} LessIsLexicographic(a: string, b: string)
    ensures Less(a, b) <==> Lexicographic(a, b)
  {
    if a != "" && b != "" {
      LessIsLexicographic(a[1..], b[1..]);
      assert a == [a[0]] + a[1..] && b == [b[0]] + b[1..];
      if a[0] == b[0] {
        assert a < b <==> a[1..] < b[1..];
        if k :| SmallerAt(a[1..], b[1..], k) {
          assert a[..k + 1] == [a[0]] + a[1..][..k] && b[..k + 1] == [b[0]] + b[1..][..k];
          assert SmallerAt(a, b, k + 1);
        }
        if k :| SmallerAt(a, b, k) {
          assert a[..k][0] == a[0] && k > 0;
          assert a[1..][..k - 1] == a[..k][1..] && b[1..][..k - 1] == b[..k][1..];
          assert SmallerAt(a[1..], b[1..], k - 1);
        }
      } else {
        assert SmallerAt(a, b, 0) <==> a[0] < b[0];
        forall k | SmallerAt(a, b, k) && k > 0
          ensures false
        {
          SameStart(a, b, k);
        }
        assert !(a < b);
      }
    }
  }

  ghost function NamesOf(entries: seq<Entry>): set<string> {
    set i | 0 <= i < |entries| && IsSql(entries[i]) :: entries[i].name
  }

  function Elements(names: seq<string>): set<string> {
    set i | 0 <= i < |names| :: names[i]
  }

  /** A strictly sorted list is the only one with its elements, so the order of the directory does not matter. */
  lemma {:induction false} SortedIsUnique(a: seq<string>, b: seq<string>)
    requires Sorted(a) && Sorted(b) && Elements(a) == Elements(b)
    ensures a == b
    decreases |a|
  {
    assert a != [] ==> a[0] in Elements(a);
    assert b != [] ==> b[0] in Elements(b);
    if a != [] && b != [] {
      LessTotal(a[0], b[0]);
      assert a[0] == b[0];
      TailElements(a);
      TailElements(b);
      SortedIsUnique(a[1..], b[1..]);
      assert a == [a[0]] + a[1..] && b == [b[0]] + b[1..];
    }
  }

  lemma TailElements(a: seq<string>)
    requires a != [] && Sorted(a)
    ensures Sorted(a[1..]) && Elements(a[1..]) == Elements(a) - {a[0]}
  {
    LessTotal(a[0], a[0]);
    forall x | x in Elements(a) - {a[0]}
      ensures x in Elements(a[1..])
    {
      var i :| 0 <= i < |a| && a[i] == x;
      assert a[1..][i - 1] == x;
    }
    forall x | x in Elements(a[1..])
      ensures x in Elements(a) - {a[0]}
    {
      var i :| 0 <= i < |a[1..]| && a[1..][i] == x;
      assert a[i + 1] == x && Less(a[0], a[i + 1]);
    }
  }

  /** Insert a name that is not there yet. */
  method InsertSorted(names: seq<string>, name: string) returns (r: seq<string>)
    requires Sorted(names) && name !in Elements(names)
    ensures Sorted(r) && Elements(r) == Elements(names) + {name}
  {
    var i := 0;
    while i < |names| && Less(names[i], name)
      invariant 0 <= i <= |names|
      invariant forall j :: 0 <= j < i ==> Less(names[j], name)
    {
      i := i + 1;
    }
    r := names[..i] + [name] + names[i..];
    if i < |names| {
      assert names[i] in Elements(names);
      LessTotal(names[i], name);
      forall j | i < j < |names|
        ensures Less(name, names[j])
      {
        LessTransitive(name, names[i], names[j]);
      }
    }
    assert forall j :: 0 <= j < |names| ==> r[if j < i then j else j + 1] == names[j];
    assert r[i] == name;
  }

  /** The names of a directory, of which no two entries share one, filtered and sorted. */
  method ListFiles(entries: seq<Entry>) returns (files: seq<string>)
    requires forall i, j :: 0 <= i < j < |entries| ==> entries[i].name != entries[j].name
    ensures Sorted(files) && Elements(files) == NamesOf(entries)
    ensures forall i, j :: 0 <= i < j < |files| ==> Lexicographic(files[i], files[j])
    ensures forall name :: name in Elements(files) <==>
              exists i :: 0 <= i < |entries| && entries[i] == Entry(name, false) && ".sql" == name[if |name| < 4 then 0 else |name| - 4..]
  {
    files := [];
    var i := 0;
    while i < |entries|
      invariant 0 <= i <= |entries|
      invariant Sorted(files) && Elements(files) == NamesOf(entries[..i])
    {
      assert entries[..i + 1] == entries[..i] + [entries[i]];
      assert NamesOf(entries[..i + 1]) == NamesOf(entries[..i]) + if IsSql(entries[i]) then {entries[i].name} else {} by {
        NamesAppend(entries[..i], entries[i]);
      }
      if IsSql(entries[i]) {
        files := InsertSorted(files, entries[i].name);
      }
      i := i + 1;
    }
    assert entries[..i] == entries;
    forall i, j | 0 <= i < j < |files|
      ensures Lexicographic(files[i], files[j])
    {
      LessIsLexicographic(files[i], files[j]);
    }
  }

  lemma NamesAppend(entries: seq<Entry>, e: Entry)
    ensures NamesOf(entries + [e]) == NamesOf(entries) + if IsSql(e) then {e.name} else {}
  {
    var all := entries + [e];
    assert forall i :: 0 <= i < |entries| ==> all[i] == entries[i];
    assert all[|entries|] == e;
    forall x | x in NamesOf(all)
      ensures x in NamesOf(entries) + if IsSql(e) then {e.name} else {}
    {
      var i :| 0 <= i < |all| && IsSql(all[i]) && all[i].name == x;
      assert i < |entries| ==> entries[i].name == x;
    }
    forall x | x in NamesOf(entries)
      ensures x in NamesOf(all)
    {
      var i :| 0 <= i < |entries| && IsSql(entries[i]) && entries[i].name == x;
      assert all[i].name == x;
    }
  }

  // --- the database and the runners ----------------------------------------------------------

  /** `selfCommits`: the script holds a COMMIT of its own. */
  datatype File = File(name: string, selfCommits: bool)

  /** What the scripts do to the schema; None when the database refuses one. */
  datatype Setup<!S> = Setup(files: seq<File>, apply: (S, File) -> Option<S>, empty: S)

  predicate Distinct(files: seq<File>) {
    forall i, j :: 0 <= i < j < |files| ==> files[i].name != files[j].name
  }

  /** `ran` is the history of the scripts whose effect was committed. */
  datatype Db<S> = Db(schema: S, recorded: set<string>, ran: seq<int>)

  datatype Outcome = Fine | Error | Lost

  datatype Runner =
    | Asking                                              // about to read the applied migrations
    | At(applied: set<string>, i: int, executed: bool)    // at file i, whose script was executed and committed itself
    | Ended(ok: bool)

  function Run<S>(setup: Setup<S>, db: Db<S>, i: int): Option<Db<S>>
    requires 0 <= i < |setup.files|
  {
    match setup.apply(db.schema, setup.files[i])
    case None => None
    case Some(schema) => Some(db.(schema := schema, ran := db.ran + [i]))
  }

  function Record<S>(setup: Setup<S>, db: Db<S>, i: int): Option<Db<S>>
    requires 0 <= i < |setup.files|
  {
    if setup.files[i].name in db.recorded then None else Some(db.(recorded := db.recorded + {setup.files[i].name}))
  }

  /** After the commit of file i's record. */
  function Onward(applied: set<string>, i: int, outcome: Outcome): Runner {
    if outcome.Lost? then Ended(false) else At(applied, i + 1, false)
  }

  /** One atomic step of a runner at file i. */
  function TurnAt<S>(setup: Setup<S>, db: Db<S>, applied: set<string>, i: int, executed: bool, outcome: Outcome): (Db<S>, Runner)
    requires 0 <= i < |setup.files|
  {
    var file := setup.files[i];
    if file.name in applied then (db, At(applied, i + 1, false))
    else if outcome.Error? then (db, Ended(false))
    else if executed then
      match Record(setup, db, i)
      case None => (db, Ended(false))
      case Some(db') => (db', Onward(applied, i, outcome))
    else
      match Run(setup, db, i)
      case None => (db, Ended(false))
      case Some(ran) =>
        if file.selfCommits then (ran, if outcome.Lost? then Ended(false) else At(applied, i, true))
        else
          match Record(setup, ran, i)
          case None => (db, Ended(false))
          case Some(db') => (db', Onward(applied, i, outcome))
  }

  function Turn<S>(setup: Setup<S>, db: Db<S>, me: Runner, outcome: Outcome): (Db<S>, Runner) {
    match me
    case Asking => (db, if outcome.Fine? then At(db.recorded, 0, false) else Ended(false))
    case Ended(_) => (db, me)
    case At(applied, i, executed) =>
      if 0 <= i < |setup.files| then TurnAt(setup, db, applied, i, executed, outcome) else (db, Ended(true))
  }

  /**
   What one turn of a runner at a file does: skip a file it has read as applied; else, unless the
   call fails, run and record a plain script as one, refuse both or neither; a script with a COMMIT
   of its own is run first and recorded by a turn of its own.  An answer that is lost ends the runner
   though the database has changed.
   */
  lemma TurnOutcome<S>(setup: Setup<S>, db: Db<S>, applied: set<string>, i: int, executed: bool, outcome: Outcome)
    requires 0 <= i < |setup.files|
    ensures var file := setup.files[i];
            var (db', me') := Turn(setup, db, At(applied, i, executed), outcome);
            var runs, records := !executed && setup.apply(db.schema, file).Some?, file.name !in db.recorded;
            if file.name in applied then db' == db && me' == At(applied, i + 1, false)
            else if outcome.Error? then db' == db && me' == Ended(false)
            else if !executed && !runs then db' == db && me' == Ended(false)
            else if executed || !file.selfCommits then
              if !records then db' == db && me' == Ended(false)
              else
                && db' == Db(if runs then setup.apply(db.schema, file).value else db.schema, db.recorded + {file.name},
                             if runs then db.ran + [i] else db.ran)
                && me' == if outcome.Lost? then Ended(false) else At(applied, i + 1, false)
            else
              && db' == Db(setup.apply(db.schema, file).value, db.recorded, db.ran + [i])
              && me' == if outcome.Lost? then Ended(false) else At(applied, i, true)
  {
  }

  /** A runner begins with what is recorded when it asks, succeeds after the last file, and then does nothing. */
  lemma TurnEnds<S>(setup: Setup<S>, db: Db<S>, applied: set<string>, i: int, executed: bool, ok: bool, outcome: Outcome)
    ensures Turn(setup, db, Asking, outcome) == (db, if outcome.Fine? then At(db.recorded, 0, false) else Ended(false))
    ensures i >= |setup.files| ==> Turn(setup, db, At(applied, i, executed), outcome) == (db, Ended(true))
    ensures Turn(setup, db, Ended(ok), outcome) == (db, Ended(ok))
  {
  }

  datatype State<S> = State(db: Db<S>, runners: map<int, Runner>)

  /** A runner that crashes takes no more turns; it may as well be started again. */
  datatype Event = Start(r: int) | Turn_(r: int, outcome: Outcome)

  function Step<S>(setup: Setup<S>, s: State<S>, e: Event): State<S> {
    match e
    case Start(r) => s.(runners := s.runners[r := Asking])
    case Turn_(r, outcome) =>
      if r !in s.runners then s
      else
        var (db, me) := Turn(setup, s.db, s.runners[r], outcome);
        State(db, s.runners[r := me])
  }

  function Exec<S>(setup: Setup<S>, s: State<S>, es: seq<Event>): State<S>
    decreases |es|
  {
    if es == [] then s else Exec(setup, Step(setup, s, es[0]), es[1..])
  }

  function Fresh<S>(setup: Setup<S>): State<S> {
    State(Db(setup.empty, {}, []), map[])
  }

  // --- what every step keeps --------------------------------------------------------------------

  /** How many files are recorded, counted up to the first that is not. */
  function Level(files: seq<File>, recorded: set<string>): (n: int)
    ensures 0 <= n <= |files|
    ensures n < |files| ==> files[n].name !in recorded
    ensures forall i :: 0 <= i < n ==> files[i].name in recorded
    decreases |files|
  {
    if files == [] || files[0].name !in recorded then 0 else 1 + Level(files[1..], recorded)
  }

  lemma LevelIs(files: seq<File>, recorded: set<string>, n: int)
    requires 0 <= n <= |files|
    requires forall i :: 0 <= i < n ==> files[i].name in recorded
    requires n < |files| ==> files[n].name !in recorded
    ensures Level(files, recorded) == n
  {
  }

  /** Exactly the first n files are recorded. */
  ghost predicate IsPrefix(files: seq<File>, recorded: set<string>, n: int) {
    && 0 <= n <= |files|
    && (forall i :: 0 <= i < |files| ==> (files[i].name in recorded <==> i < n))
    && (forall name :: name in recorded ==> exists i :: 0 <= i < |files| && files[i].name == name)
  }

  /** What the first n scripts in order make of the empty schema. */
  ghost function Fold<S>(setup: Setup<S>, n: int): Option<S>
    decreases n
  {
    if n <= 0 then Some(setup.empty)
    else if n > |setup.files| then None
    else
      match Fold(setup, n - 1)
      case None => None
      case Some(schema) => setup.apply(schema, setup.files[n - 1])
  }

  /** A runner at file i has seen everything before i recorded, and what it takes for applied is. */
  ghost predicate RunnerInv<S>(setup: Setup<S>, db: Db<S>, n: int, me: Runner) {
    && (me == Ended(true) ==> n == |setup.files|)
    && (me.At? ==>
      && 0 <= me.i <= n
      && me.applied <= db.recorded
      && (me.executed ==> me.i < |setup.files| && setup.files[me.i].selfCommits && setup.files[me.i].name !in me.applied)
      && (me.executed ==> me.i < n || me.i in db.ran))
  }

  /** Every recorded file has run, and only the next one may have run unrecorded. */
  ghost predicate RanInv<S>(setup: Setup<S>, db: Db<S>, n: int) {
    && (forall i :: 0 <= i < n ==> i in db.ran)
    && (forall i :: i in db.ran ==> 0 <= i < |setup.files| && (i < n || (i == n && setup.files[n].selfCommits)))
  }

  ghost predicate DbInv<S>(setup: Setup<S>, db: Db<S>) {
    var n := Level(setup.files, db.recorded);
    IsPrefix(setup.files, db.recorded, n) && RanInv(setup, db, n)
  }

  ghost predicate Inv<S>(setup: Setup<S>, s: State<S>) {
    && DbInv(setup, s.db)
    && forall r :: r in s.runners ==> RunnerInv(setup, s.db, Level(setup.files, s.db.recorded), s.runners[r])
  }

  /** What one turn may do to the database: nothing, commit the effect of a file, record a file, or both. */
  ghost predicate Grows<S>(setup: Setup<S>, db: Db<S>, db': Db<S>) {
    var n := Level(setup.files, db.recorded);
    || db' == db
    || (exists i :: 0 <= i <= n && i < |setup.files| && setup.files[i].selfCommits && Run(setup, db, i) == Some(db'))
    || (n < |setup.files| && n in db.ran && setup.files[n].selfCommits && Record(setup, db, n) == Some(db'))
    || (n < |setup.files| && !setup.files[n].selfCommits && Run(setup, db, n).Some? && Record(setup, Run(setup, db, n).value, n) == Some(db'))
  }

  lemma TurnGrows<S>(setup: Setup<S>, db: Db<S>, me: Runner, outcome: Outcome)
    requires DbInv(setup, db) && RunnerInv(setup, db, Level(setup.files, db.recorded), me)
    ensures Grows(setup, db, Turn(setup, db, me, outcome).0)
  {
    var n, db' := Level(setup.files, db.recorded), Turn(setup, db, me, outcome).0;
    if db' != db {
      var i := me.i;
      assert 0 <= i <= n && i < |setup.files|;
      if !setup.files[i].selfCommits || me.executed {
        assert setup.files[i].name !in db.recorded;
        assert i == n;
      } else {
        assert Run(setup, db, i) == Some(db');
      }
    }
  }

  lemma RecordingRaises(files: seq<File>, recorded: set<string>, n: int)
    requires Distinct(files) && IsPrefix(files, recorded, n) && n < |files|
    ensures IsPrefix(files, recorded + {files[n].name}, n + 1)
    ensures Level(files, recorded + {files[n].name}) == n + 1
  {
    LevelIs(files, recorded + {files[n].name}, n + 1);
  }

  lemma RanKeeps<S>(setup: Setup<S>, db: Db<S>, db': Db<S>, i: int)
    requires DbInv(setup, db) && 0 <= i <= Level(setup.files, db.recorded) && i < |setup.files|
    requires setup.files[i].selfCommits && Run(setup, db, i) == Some(db')
    ensures DbInv(setup, db')
  {
    assert db'.recorded == db.recorded && db'.ran == db.ran + [i];
  }

  lemma RecordKeeps<S>(setup: Setup<S>, db: Db<S>, n: int)
    requires Distinct(setup.files) && IsPrefix(setup.files, db.recorded, n) && n < |setup.files| && n in db.ran
    requires forall i :: 0 <= i < n ==> i in db.ran
    requires forall i :: i in db.ran ==> 0 <= i <= n
    ensures Record(setup, db, n).Some? && DbInv(setup, Record(setup, db, n).value)
    ensures Level(setup.files, Record(setup, db, n).value.recorded) == n + 1
  {
    RecordingRaises(setup.files, db.recorded, n);
    assert RanInv(setup, Record(setup, db, n).value, n + 1);
  }

  lemma BothKeep<S>(setup: Setup<S>, db: Db<S>, n: int)
    requires Distinct(setup.files) && DbInv(setup, db) && n == Level(setup.files, db.recorded) < |setup.files|
    requires !setup.files[n].selfCommits && Run(setup, db, n).Some?
    ensures var db' := Record(setup, Run(setup, db, n).value, n);
            db'.Some? && DbInv(setup, db'.value) && Level(setup.files, db'.value.recorded) == n + 1
  {
    assert Run(setup, db, n).value.ran == db.ran + [n];
    RecordKeeps(setup, Run(setup, db, n).value, n);
  }

  lemma GrowingKeeps<S>(setup: Setup<S>, db: Db<S>, db': Db<S>)
    requires Distinct(setup.files) && DbInv(setup, db) && Grows(setup, db, db')
    ensures DbInv(setup, db')
    ensures Level(setup.files, db.recorded) <= Level(setup.files, db'.recorded)
    ensures db.recorded <= db'.recorded && db.ran <= db'.ran
  {
    var n := Level(setup.files, db.recorded);
    if n < |setup.files| && !setup.files[n].selfCommits && Run(setup, db, n).Some? && Record(setup, Run(setup, db, n).value, n) == Some(db') {
      BothKeep(setup, db, n);
    } else if n < |setup.files| && n in db.ran && Record(setup, db, n) == Some(db') {
      RecordKeeps(setup, db, n);
    } else if db' != db {
      var i :| 0 <= i <= n && i < |setup.files| && setup.files[i].selfCommits && Run(setup, db, i) == Some(db');
      RanKeeps(setup, db, db', i);
    }
  }

  lemma LaterRunner<S>(setup: Setup<S>, db: Db<S>, n: int, db': Db<S>, n': int, me: Runner)
    requires RunnerInv(setup, db, n, me) && n <= n' <= |setup.files| && db.recorded <= db'.recorded && db.ran <= db'.ran
    ensures RunnerInv(setup, db', n', me)
  {
    assert forall i :: i in db.ran ==> i in db'.ran;
  }

  /** Where a turn that saw `seen` recorded may leave a runner, and what the runner may rely on there. */
  predicate Moves<S>(setup: Setup<S>, db: Db<S>, seen: set<string>, me: Runner, me': Runner)
    requires me.At? ==> 0 <= me.i
  {
    || me' == me
    || me' == Ended(false)
    || (me' == Ended(true) && me.At? && me.i >= |setup.files|)
    || me' == At(seen, 0, false)
    || (me.At? && me.i < |setup.files|
        && ((me' == At(me.applied, me.i + 1, false) && setup.files[me.i].name in db.recorded)
            || (me' == At(me.applied, me.i, true) && me.i in db.ran
                && setup.files[me.i].selfCommits && setup.files[me.i].name !in me.applied)))
  }

  lemma TurnMoves<S>(setup: Setup<S>, db: Db<S>, me: Runner, outcome: Outcome)
    requires me.At? ==> 0 <= me.i && me.applied <= db.recorded
    ensures var (db', me') := Turn(setup, db, me, outcome);
            Moves(setup, db', db.recorded, me, me')
  {
  }

  lemma TurnKeepsRunner<S>(setup: Setup<S>, db: Db<S>, me: Runner, outcome: Outcome)
    requires Distinct(setup.files) && DbInv(setup, db) && RunnerInv(setup, db, Level(setup.files, db.recorded), me)
    ensures var (db', me') := Turn(setup, db, me, outcome);
            RunnerInv(setup, db', Level(setup.files, db'.recorded), me')
  {
    var (db', me') := Turn(setup, db, me, outcome);
    var n, n' := Level(setup.files, db.recorded), Level(setup.files, db'.recorded);
    TurnGrows(setup, db, me, outcome);
    GrowingKeeps(setup, db, db');
    TurnMoves(setup, db, me, outcome);
    LaterRunner(setup, db, n, db', n', me);
    PlaceIsSound(setup, db', n', me, me', db.recorded);
  }

  lemma PlaceIsSound<S>(setup: Setup<S>, db: Db<S>, n: int, me: Runner, me': Runner, seen: set<string>)
    requires IsPrefix(setup.files, db.recorded, n) && RunnerInv(setup, db, n, me) && seen <= db.recorded
    requires Moves(setup, db, seen, me, me')
    ensures RunnerInv(setup, db, n, me')
  {
  }

  lemma StepKeeps<S>(setup: Setup<S>, s: State<S>, e: Event)
    requires Distinct(setup.files) && Inv(setup, s)
    ensures Inv(setup, Step(setup, s, e)) && Grows(setup, s.db, Step(setup, s, e).db)
  {
    if e.Turn_? && e.r in s.runners {
      var me := s.runners[e.r];
      TurnGrows(setup, s.db, me, e.outcome);
      TurnKeepsRunner(setup, s.db, me, e.outcome);
      GrowingKeeps(setup, s.db, Turn(setup, s.db, me, e.outcome).0);
    }
  }

  lemma FreshInv<S>(setup: Setup<S>)
    ensures Inv(setup, Fresh(setup)) && Level(setup.files, {}) == 0
  {
  }

  /**
   With any number of runners and crashes, the recorded files are always a prefix of the sorted list,
   every one of them has run, at most the next one has run unrecorded, and a runner that reports
   success leaves all of them recorded.
   */
  lemma {:induction false} AlwaysPrefix<S>(setup: Setup<S>, s: State<S>, es: seq<Event>)
    requires Distinct(setup.files) && Inv(setup, s)
    ensures Inv(setup, Exec(setup, s, es))
    ensures Level(setup.files, s.db.recorded) <= Level(setup.files, Exec(setup, s, es).db.recorded)
    ensures s.db.ran <= Exec(setup, s, es).db.ran
    decreases |es|
  {
    if es != [] {
      StepKeeps(setup, s, es[0]);
      GrowingKeeps(setup, s.db, Step(setup, s, es[0]).db);
      AlwaysPrefix(setup, Step(setup, s, es[0]), es[1..]);
    }
  }

  // --- scripts without a COMMIT of their own ------------------------------------------------------

  predicate AllPlain(files: seq<File>) {
    forall i :: 0 <= i < |files| ==> !files[i].selfCommits
  }

  function Count(n: int): seq<int>
    requires n >= 0
  {
    seq(n, i => i)
  }

  /** Each recorded file's effect was committed exactly once, in order, and nothing else was. */
  ghost predicate ExactlyOnce<S>(setup: Setup<S>, db: Db<S>) {
    var n := Level(setup.files, db.recorded);
    db.ran == Count(n) && Fold(setup, n) == Some(db.schema)
  }

  /** No script commits itself: one with a COMMIT of its own is refused where it comes up, or an earlier one is. */
  ghost predicate NoneCommitsItself<S>(setup: Setup<S>) {
    forall k :: 0 <= k < |setup.files| && setup.files[k].selfCommits ==> Fold(setup, k + 1).None?
  }

  lemma NoEarlyEffect<S>(setup: Setup<S>, db: Db<S>, i: int)
    requires NoneCommitsItself(setup) && ExactlyOnce(setup, db)
    requires 0 <= i <= Level(setup.files, db.recorded) && i < |setup.files| && setup.files[i].selfCommits
    ensures Run(setup, db, i).None?
  {
    var n := Level(setup.files, db.recorded);
    if i < n {
      FoldDefined(setup, i + 1, n);
    }
  }

  lemma GrowsOnce<S>(setup: Setup<S>, db: Db<S>, db': Db<S>)
    requires Distinct(setup.files) && NoneCommitsItself(setup)
    requires DbInv(setup, db) && Grows(setup, db, db') && ExactlyOnce(setup, db)
    ensures ExactlyOnce(setup, db')
  {
    var n := Level(setup.files, db.recorded);
    if db' != db {
      forall i | 0 <= i <= n && i < |setup.files| && setup.files[i].selfCommits
        ensures Run(setup, db, i).None?
      {
        NoEarlyEffect(setup, db, i);
      }
      assert n !in db.ran;
      RecordingRaises(setup.files, db.recorded, n);
      assert db'.ran == Count(n) + [n] == Count(n + 1);
      assert Fold(setup, n + 1) == setup.apply(db.schema, setup.files[n]);
    }
  }

  lemma {:induction false} PlainIsExactlyOnce<S>(setup: Setup<S>, s: State<S>, es: seq<Event>)
    requires Distinct(setup.files) && NoneCommitsItself(setup) && Inv(setup, s) && ExactlyOnce(setup, s.db)
    ensures ExactlyOnce(setup, Exec(setup, s, es).db)
    decreases |es|
  {
    if es != [] {
      var t := Step(setup, s, es[0]);
      StepKeeps(setup, s, es[0]);
      GrowsOnce(setup, s.db, t.db);
      PlainIsExactlyOnce(setup, t, es[1..]);
    }
  }

  // --- scripts with one ------------------------------------------------------------------------------

  /** Running a self-committing script again, on any later schema, is refused or changes nothing. */
  ghost predicate Harmless<S>(setup: Setup<S>) {
    forall i, m :: 0 <= i < m <= |setup.files| && setup.files[i].selfCommits && Fold(setup, m).Some? ==>
      Again(setup, i, m)
  }

  ghost predicate Again<S>(setup: Setup<S>, i: int, m: int)
    requires 0 <= i < |setup.files| && Fold(setup, m).Some?
  {
    var again := setup.apply(Fold(setup, m).value, setup.files[i]);
    again.None? || again == Fold(setup, m)
  }

  /** The schema is that of the recorded prefix, or of one file more whose effect is committed but not yet recorded. */
  ghost predicate SchemaInv<S>(setup: Setup<S>, db: Db<S>) {
    var n := Level(setup.files, db.recorded);
    Some(db.schema) == Fold(setup, if n in db.ran then n + 1 else n)
  }

  lemma RanHarmlessly<S>(setup: Setup<S>, db: Db<S>, db': Db<S>, i: int)
    requires Harmless(setup) && DbInv(setup, db) && SchemaInv(setup, db)
    requires 0 <= i <= Level(setup.files, db.recorded) && i < |setup.files|
    requires setup.files[i].selfCommits && Run(setup, db, i) == Some(db')
    ensures SchemaInv(setup, db')
  {
    var n := Level(setup.files, db.recorded);
    var m := if n in db.ran then n + 1 else n;
    assert db'.ran == db.ran + [i] && db'.recorded == db.recorded;
    if i < m {
      assert m <= |setup.files|;
      assert Again(setup, i, m);
    }
  }

  lemma GrowsHarmlessly<S>(setup: Setup<S>, db: Db<S>, db': Db<S>)
    requires Distinct(setup.files) && Harmless(setup)
    requires DbInv(setup, db) && Grows(setup, db, db') && SchemaInv(setup, db)
    ensures SchemaInv(setup, db')
  {
    var n := Level(setup.files, db.recorded);
    if n < |setup.files| && !setup.files[n].selfCommits && Run(setup, db, n).Some? && Record(setup, Run(setup, db, n).value, n) == Some(db') {
      BothKeep(setup, db, n);
      assert n + 1 !in db'.ran;
      assert n !in db.ran;
    } else if n < |setup.files| && n in db.ran && Record(setup, db, n) == Some(db') {
      RecordKeeps(setup, db, n);
      assert n + 1 !in db'.ran;
    } else if db' != db {
      var i :| 0 <= i <= n && i < |setup.files| && setup.files[i].selfCommits && Run(setup, db, i) == Some(db');
      RanHarmlessly(setup, db, db', i);
    }
  }

  /**
   When the self-committing scripts can be run again without harm, the schema is at every moment
   the fold of the recorded prefix, or of the prefix and the one next script.
   */
  lemma {:induction false} HarmlessIsAtLeastOnce<S>(setup: Setup<S>, s: State<S>, es: seq<Event>)
    requires Distinct(setup.files) && Harmless(setup) && Inv(setup, s) && SchemaInv(setup, s.db)
    ensures SchemaInv(setup, Exec(setup, s, es).db)
    decreases |es|
  {
    if es != [] {
      var t := Step(setup, s, es[0]);
      StepKeeps(setup, s, es[0]);
      GrowsHarmlessly(setup, s.db, t.db);
      HarmlessIsAtLeastOnce(setup, t, es[1..]);
    }
  }

  // --- a lone run ----------------------------------------------------------------------------------------

  /** A runner's turns with nobody in between, until it ends or, when the outcomes run out, crashes. */
  function RunOut<S>(setup: Setup<S>, db: Db<S>, me: Runner, outcomes: seq<Outcome>): (Db<S>, Runner)
    decreases |outcomes|
  {
    if outcomes == [] then (db, me)
    else
      var (db', me') := Turn(setup, db, me, outcomes[0]);
      RunOut(setup, db', me', outcomes[1..])
  }

  function TurnsOf(r: int, outcomes: seq<Outcome>): seq<Event> {
    seq(|outcomes|, i requires 0 <= i < |outcomes| => Turn_(r, outcomes[i]))
  }

  /** Such turns are one of the interleavings. */
  lemma {:induction false} RunOutIsARun<S>(setup: Setup<S>, s: State<S>, r: int, outcomes: seq<Outcome>)
    requires r in s.runners
    ensures var (db, me) := RunOut(setup, s.db, s.runners[r], outcomes);
            Exec(setup, s, TurnsOf(r, outcomes)) == State(db, s.runners[r := me])
    decreases |outcomes|
  {
    if outcomes != [] {
      var es := TurnsOf(r, outcomes);
      assert es[1..] == TurnsOf(r, outcomes[1..]);
      var t := Step(setup, s, es[0]);
      RunOutIsARun(setup, t, r, outcomes[1..]);
      assert t.runners[r := RunOut(setup, t.db, t.runners[r], outcomes[1..]).1] == s.runners[r := RunOut(setup, t.db, t.runners[r], outcomes[1..]).1];
    } else {
      assert s.runners[r := s.runners[r]] == s.runners;
    }
  }

  predicate AllFine(outcomes: seq<Outcome>) {
    forall i :: 0 <= i < |outcomes| ==> outcomes[i].Fine?
  }

  /** How many turns a runner that has found nothing applied takes from file i to reach file j. */
  function TurnsBetween(files: seq<File>, i: int, j: int): nat
    requires 0 <= i <= j <= |files|
    decreases j - i
  {
    if i == j then 0 else (if files[i].selfCommits then 2 else 1) + TurnsBetween(files, i + 1, j)
  }

  function AfterFile<S>(setup: Setup<S>, db: Db<S>, i: int): Db<S>
    requires 0 <= i < |setup.files| && Run(setup, db, i).Some?
  {
    Run(setup, db, i).value.(recorded := db.recorded + {setup.files[i].name})
  }

  lemma OneFile<S>(setup: Setup<S>, db: Db<S>, i: int, outcomes: seq<Outcome>)
    requires 0 <= i < |setup.files| && Run(setup, db, i).Some? && setup.files[i].name !in db.recorded
    requires AllFine(outcomes) && |outcomes| >= (if setup.files[i].selfCommits then 2 else 1)
    ensures RunOut(setup, db, At({}, i, false), outcomes) ==
            RunOut(setup, AfterFile(setup, db, i), At({}, i + 1, false), outcomes[if setup.files[i].selfCommits then 2 else 1..])
  {
    var db' := AfterFile(setup, db, i);
    if setup.files[i].selfCommits {
      var ran := Run(setup, db, i).value;
      assert Turn(setup, db, At({}, i, false), outcomes[0]) == (ran, At({}, i, true));
      assert outcomes[1..][1..] == outcomes[2..] && outcomes[1..][0] == outcomes[1];
      assert Turn(setup, ran, At({}, i, true), outcomes[1]) == (db', At({}, i + 1, false));
    } else {
      assert Turn(setup, db, At({}, i, false), outcomes[0]) == (db', At({}, i + 1, false));
    }
  }

  /** A run that meets no failure, from file i on a database with exactly the files before i. */
  lemma {:induction false} LoneRun<S>(setup: Setup<S>, db: Db<S>, i: int, j: int, outcomes: seq<Outcome>)
    requires Distinct(setup.files) && 0 <= i <= j <= |setup.files| && Fold(setup, j).Some?
    requires IsPrefix(setup.files, db.recorded, i) && Fold(setup, i) == Some(db.schema) && db.ran == Count(i)
    requires AllFine(outcomes) && |outcomes| == TurnsBetween(setup.files, i, j)
    ensures var (db', me) := RunOut(setup, db, At({}, i, false), outcomes);
            && me == At({}, j, false)
            && IsPrefix(setup.files, db'.recorded, j) && Fold(setup, j) == Some(db'.schema) && db'.ran == Count(j)
    decreases j - i
  {
    if i < j {
      FoldDefined(setup, i + 1, j);
      var db' := AfterFile(setup, db, i);
      OneFile(setup, db, i, outcomes);
      RecordingRaises(setup.files, db.recorded, i);
      assert db'.ran == Count(i) + [i] == Count(i + 1);
      LoneRun(setup, db', i + 1, j, outcomes[if setup.files[i].selfCommits then 2 else 1..]);
    }
  }

  lemma {:induction false} FoldDefined<S>(setup: Setup<S>, i: int, j: int)
    requires 0 <= i <= j && Fold(setup, j).Some?
    ensures Fold(setup, i).Some? && j <= |setup.files|
    decreases j
  {
    if i < j {
      FoldDefined(setup, i, j - 1);
    }
  }

  lemma {:induction false} RunOutAppends<S>(setup: Setup<S>, db: Db<S>, me: Runner, first: seq<Outcome>, last: seq<Outcome>)
    ensures var (db', me') := RunOut(setup, db, me, first);
            RunOut(setup, db, me, first + last) == RunOut(setup, db', me', last)
    decreases |first|
  {
    if first == [] {
      assert first + last == last;
    } else {
      assert (first + last)[1..] == first[1..] + last;
      var (db', me') := Turn(setup, db, me, first[0]);
      RunOutAppends(setup, db', me', first[1..], last);
    }
  }

  function Fines(n: nat): seq<Outcome> {
    seq(n, _ => Fine)
  }

  /** The turns of a runner that crashes right after script k committed itself. */
  lemma CrashAfter<S>(setup: Setup<S>, k: int) returns (es: seq<Event>)
    requires Distinct(setup.files) && 0 <= k < |setup.files| && setup.files[k].selfCommits
    requires Fold(setup, k + 1).Some?
    ensures var db := Exec(setup, Fresh(setup), es).db;
            && IsPrefix(setup.files, db.recorded, k)
            && db.ran == Count(k + 1) && Fold(setup, k + 1) == Some(db.schema)
  {
    FoldDefined(setup, k, k + 1);
    var fines := Fines(TurnsBetween(setup.files, 0, k));
    var db, started := Fresh(setup).db, Step(setup, Fresh(setup), Start(0));
    assert Turn(setup, db, Asking, Fine) == (db, At({}, 0, false));
    LoneRun(setup, db, 0, k, fines);
    var (db', me') := RunOut(setup, db, At({}, 0, false), fines);
    RunOutAppends(setup, db, At({}, 0, false), fines, [Fine]);
    var outcomes := [Fine] + (fines + [Fine]);
    assert outcomes[1..] == fines + [Fine];
    assert RunOut(setup, db', At({}, k, false), [Fine]).0 == Run(setup, db', k).value;
    assert Count(k + 1) == Count(k) + [k];
    RunOutIsARun(setup, started, 0, outcomes);
    es := [Start(0)] + TurnsOf(0, outcomes);
    assert es[1..] == TurnsOf(0, outcomes);
  }

  /**
   Scripts take effect exactly once, in step with their records, in every run if and only if none
   that is ever accepted holds a COMMIT of its own.
   */
  lemma ExactlyOnceIff<S>(setup: Setup<S>)
    requires Distinct(setup.files)
    ensures (forall es :: ExactlyOnce(setup, Exec(setup, Fresh(setup), es).db)) <==> NoneCommitsItself(setup)
  {
    FreshInv(setup);
    if NoneCommitsItself(setup) {
      forall es
        ensures ExactlyOnce(setup, Exec(setup, Fresh(setup), es).db)
      {
        PlainIsExactlyOnce(setup, Fresh(setup), es);
      }
    } else {
      var k :| 0 <= k < |setup.files| && setup.files[k].selfCommits && Fold(setup, k + 1).Some?;
      var es := CrashAfter(setup, k);
      var db := Exec(setup, Fresh(setup), es).db;
      LevelIs(setup.files, db.recorded, k);
      assert |db.ran| == k + 1;
    }
  }

  /** So it is in particular when no script holds one. */
  lemma PlainScripts<S>(setup: Setup<S>, es: seq<Event>)
    requires Distinct(setup.files) && AllPlain(setup.files)
    ensures ExactlyOnce(setup, Exec(setup, Fresh(setup), es).db)
  {
    ExactlyOnceIff(setup);
  }

  // --- harm ---------------------------------------------------------------------------------------------

  lemma {:induction false} ExecAppends<S>(setup: Setup<S>, s: State<S>, es: seq<Event>, fs: seq<Event>)
    ensures Exec(setup, s, es + fs) == Exec(setup, Exec(setup, s, es), fs)
    decreases |es|
  {
    if es == [] {
      assert es + fs == fs;
    } else {
      assert (es + fs)[1..] == es[1..] + fs;
      ExecAppends(setup, Step(setup, s, es[0]), es[1..], fs);
    }
  }

  /** A runner that has read the files before i as applied skips them. */
  lemma {:induction false} Skips<S>(setup: Setup<S>, db: Db<S>, applied: set<string>, j: int, i: int)
    requires 0 <= j <= i <= |setup.files| && IsPrefix(setup.files, applied, i)
    ensures RunOut(setup, db, At(applied, j, false), Fines(i - j)) == (db, At(applied, i, false))
    decreases i - j
  {
    if j < i {
      assert Fines(i - j)[1..] == Fines(i - j - 1);
      Skips(setup, db, applied, j + 1, i);
    }
  }

  /** Runner 1 stands at file i, the files before it recorded, and runner 2 has read just that and stands there too. */
  ghost predicate BothAt<S>(setup: Setup<S>, s: State<S>, i: int) {
    && IsPrefix(setup.files, s.db.recorded, i)
    && Fold(setup, i) == Some(s.db.schema)
    && s.db.ran == Count(i)
    && 1 in s.runners && s.runners[1] == At({}, i, false)
    && 2 in s.runners && s.runners[2] == At(s.db.recorded, i, false)
  }

  lemma OneArrives<S>(setup: Setup<S>, i: int) returns (es: seq<Event>)
    requires Distinct(setup.files) && 0 <= i <= |setup.files| && Fold(setup, i).Some?
    ensures var s := Exec(setup, Fresh(setup), es);
            && IsPrefix(setup.files, s.db.recorded, i) && Fold(setup, i) == Some(s.db.schema) && s.db.ran == Count(i)
            && 1 in s.runners && s.runners[1] == At({}, i, false)
  {
    var outcomes := [Fine] + Fines(TurnsBetween(setup.files, 0, i));
    var started := Step(setup, Fresh(setup), Start(1));
    assert outcomes[1..] == Fines(TurnsBetween(setup.files, 0, i));
    LoneRun(setup, started.db, 0, i, outcomes[1..]);
    RunOutIsARun(setup, started, 1, outcomes);
    es := [Start(1)] + TurnsOf(1, outcomes);
    assert es[1..] == TurnsOf(1, outcomes);
  }

  lemma TwoArrives<S>(setup: Setup<S>, s: State<S>, i: int) returns (es: seq<Event>)
    requires 0 <= i <= |setup.files| && 1 in s.runners && s.runners[1] == At({}, i, false)
    requires IsPrefix(setup.files, s.db.recorded, i) && Fold(setup, i) == Some(s.db.schema) && s.db.ran == Count(i)
    ensures BothAt(setup, Exec(setup, s, es), i)
  {
    var outcomes := [Fine] + Fines(i);
    var started := Step(setup, s, Start(2));
    assert outcomes[1..] == Fines(i);
    Skips(setup, s.db, s.db.recorded, 0, i);
    RunOutIsARun(setup, started, 2, outcomes);
    es := [Start(2)] + TurnsOf(2, outcomes);
    assert es[1..] == TurnsOf(2, outcomes);
  }

  /** Runner 1 goes on to m, and then runner 2 executes script i once more. */
  lemma TwoHarms<S>(setup: Setup<S>, s: State<S>, i: int, m: int) returns (es: seq<Event>)
    requires Distinct(setup.files) && 0 <= i < m <= |setup.files| && setup.files[i].selfCommits && Fold(setup, m).Some?
    requires !Again(setup, i, m) && BothAt(setup, s, i)
    ensures !SchemaInv(setup, Exec(setup, s, es).db)
  {
    var fines := Fines(TurnsBetween(setup.files, i, m));
    LoneRun(setup, s.db, i, m, fines);
    RunOutIsARun(setup, s, 1, fines);
    var t := Exec(setup, s, TurnsOf(1, fines));
    LevelIs(setup.files, t.db.recorded, m);
    es := TurnsOf(1, fines) + [Turn_(2, Fine)];
    ExecAppends(setup, s, TurnsOf(1, fines), [Turn_(2, Fine)]);
    var u := Step(setup, t, Turn_(2, Fine));
    assert Exec(setup, t, [Turn_(2, Fine)]) == u;
    assert u.db.recorded == t.db.recorded && u.db.ran == Count(m) + [i];
    assert m !in u.db.ran;
  }

  /** The condition is exact: the schema is a fold of the recorded files, or of one more, in every run if and only if running again is harmless. */
  lemma HarmlessIff<S>(setup: Setup<S>)
    requires Distinct(setup.files)
    ensures (forall es :: SchemaInv(setup, Exec(setup, Fresh(setup), es).db)) <==> Harmless(setup)
  {
    FreshInv(setup);
    if Harmless(setup) {
      forall es
        ensures SchemaInv(setup, Exec(setup, Fresh(setup), es).db)
      {
        HarmlessIsAtLeastOnce(setup, Fresh(setup), es);
      }
    } else {
      var i, m :| 0 <= i < m <= |setup.files| && setup.files[i].selfCommits && Fold(setup, m).Some? && !Again(setup, i, m);
      FoldDefined(setup, i, m);
      var first := OneArrives(setup, i);
      var second := TwoArrives(setup, Exec(setup, Fresh(setup), first), i);
      var third := TwoHarms(setup, Exec(setup, Exec(setup, Fresh(setup), first), second), i, m);
      ExecAppends(setup, Fresh(setup), first, second);
      ExecAppends(setup, Fresh(setup), first + second, third);
    }
  }

  /** A runner for which every file is applied changes nothing, whatever happens. */
  lemma {:induction false} RerunDoesNothing<S>(setup: Setup<S>, db: Db<S>, me: Runner, outcomes: seq<Outcome>)
    requires Level(setup.files, db.recorded) == |setup.files|
    requires me.Asking? || me.Ended? || (me.applied == db.recorded && 0 <= me.i <= |setup.files|)
    ensures RunOut(setup, db, me, outcomes).0 == db
    ensures me.At? && |outcomes| > |setup.files| - me.i ==> RunOut(setup, db, me, outcomes).1 == Ended(true)
    ensures me.Asking? && |outcomes| > |setup.files| + 1 && outcomes[0].Fine? ==> RunOut(setup, db, me, outcomes).1 == Ended(true)
    ensures me == Ended(true) ==> RunOut(setup, db, me, outcomes).1 == me
    decreases |outcomes|
  {
    if outcomes != [] {
      var (db', me') := Turn(setup, db, me, outcomes[0]);
      RerunDoesNothing(setup, db', me', outcomes[1..]);
    }
  }

  class Database<S> {
    var schema: S
    var recorded: set<string>
    var ran: seq<int>

    ghost function View(): Db<S>
      reads this
    {
      Db(schema, recorded, ran)
    }

    constructor (empty: S)
      ensures View() == Db(empty, {}, [])
    {
      schema, recorded, ran := empty, {}, [];
    }

    /** Execute a script in a transaction that its own COMMIT may end. */
    method Execute(setup: Setup<S>, i: int) returns (ok: bool)
      requires 0 <= i < |setup.files|
      modifies this`schema, this`ran
      ensures ok <==> Run(setup, old(View()), i).Some?
      ensures View() == if ok then Run(setup, old(View()), i).value else old(View())
    {
      var result := setup.apply(schema, setup.files[i]);
      ok := result.Some?;
      if ok {
        schema, ran := result.value, ran + [i];
      }
    }

    method InsertRecord(setup: Setup<S>, i: int) returns (ok: bool)
      requires 0 <= i < |setup.files|
      modifies this`recorded
      ensures ok <==> Record(setup, old(View()), i).Some?
      ensures View() == if ok then Record(setup, old(View()), i).value else old(View())
    {
      ok := setup.files[i].name !in recorded;
      if ok {
        recorded := recorded + {setup.files[i].name};
      }
    }

    /**
     One whole run.  Each loop turn takes the outcome of one database call; the process dies when
     there is none left.
     */
    method RunMigrations(setup: Setup<S>, outcomes: seq<Outcome>) returns (me: Runner)
      modifies this
      ensures (View(), me) == RunOut(setup, old(View()), Asking, outcomes)
    {
      me := Asking;
      if outcomes == [] {
        return;
      }
      if !outcomes[0].Fine? {
        EndedStays(setup, View(), Ended(false), outcomes[1..]);
        return Ended(false);
      }
      var applied, i, k, executed := recorded, 0, 1, false;
      while i < |setup.files|
        invariant 0 <= i <= |setup.files| && 1 <= k <= |outcomes|
        invariant RunOut(setup, old(View()), Asking, outcomes) == RunOut(setup, View(), At(applied, i, executed), outcomes[k..])
        decreases |outcomes| - k
      {
        if k == |outcomes| {
          return At(applied, i, executed);
        }
        ghost var before := View();
        var outcome, name := outcomes[k], setup.files[i].name;
        assert outcomes[k..][0] == outcome && outcomes[k..][1..] == outcomes[k + 1..];
        EndedStays(setup, before, Ended(false), outcomes[k + 1..]);
        k := k + 1;
        if name in applied {
          i, executed := i + 1, false;
          continue;
        }
        if outcome.Error? {
          return Ended(false);
        }
        var schema', ran' := schema, ran;
        if !executed {
          var ok := Execute(setup, i);
          if !ok {
            return Ended(false);
          }
          if setup.files[i].selfCommits {
            EndedStays(setup, View(), Ended(false), outcomes[k..]);
            if outcome.Lost? {
              return Ended(false);
            }
            executed := true;
            continue;
          }
        }
        var ok := InsertRecord(setup, i);
        if !ok {
          schema, ran := schema', ran';    // rolled back
          return Ended(false);
        }
        EndedStays(setup, View(), Ended(false), outcomes[k..]);
        if outcome.Lost? {
          return Ended(false);
        }
        i, executed := i + 1, false;
      }
      if k == |outcomes| {
        return At(applied, i, executed);
      }
      EndedStays(setup, View(), Ended(true), outcomes[k + 1..]);
      assert outcomes[k..][1..] == outcomes[k + 1..];
      me := Ended(true);
    }
  }

  lemma {:induction false} EndedStays<S>(setup: Setup<S>, db: Db<S>, me: Runner, outcomes: seq<Outcome>)
    requires me.Ended?
    ensures RunOut(setup, db, me, outcomes) == (db, me)
    decreases |outcomes|
  {
    if outcomes != [] {
      EndedStays(setup, db, me, outcomes[1..]);
    }
  }
}
