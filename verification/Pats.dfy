/**
 Personal access tokens: the lookup by prefix against a scan of every row.

 The hash of a token stands for the token itself, that is, hashes are compared as equality of what
 was hashed, and the tokens drawn at random are pairwise distinct.
 */
module Pats {
  import opened Options

  datatype Row = Row(id: int, userId: int, token: string, prefix: string, expires: Option<int>)

  datatype State = State(rows: seq<Row>, next: int, now: int)

  datatype Event =
    | Create(userId: int, token: string, expires: Option<int>)
    | Revoke(id: int, userId: int)
    | Clock(now: int)

  const NEW := State([], 0, 0)

  const PREFIX_LENGTH := 12

  predicate Current(expires: Option<int>, now: int) {
    expires.None? || now < expires.value
  }

  /** `raw[:12]` */
  function PrefixOf(token: string): string {
    if |token| < PREFIX_LENGTH then token else token[..PREFIX_LENGTH]
  }

  /** `DELETE … WHERE id = $1 AND user_id = $2` */
  function Without(rows: seq<Row>, id: int, userId: int): seq<Row>
    decreases |rows|
  {
    if rows == [] then []
    else (if rows[0].id == id && rows[0].userId == userId then [] else [rows[0]]) + Without(rows[1..], id, userId)
  }

  function Step(s: State, e: Event): State {
    match e
    case Create(userId, token, expires) =>
      s.(rows := s.rows + [Row(s.next, userId, token, PrefixOf(token), expires)], next := s.next + 1)
    case Revoke(id, userId) => s.(rows := Without(s.rows, id, userId))
    case Clock(now) => s.(now := now)
  }

  function Exec(s: State, es: seq<Event>): State
    decreases |es|
  {
    if es == [] then s else Exec(Step(s, es[0]), es[1..])
  }

  /** `WHERE prefix = $1 AND (expires_at IS NULL OR expires_at > NOW())` */
  function Candidates(rows: seq<Row>, prefix: string, now: int): seq<Row>
    decreases |rows|
  {
    if rows == [] then []
    else
      (if rows[0].prefix == prefix && Current(rows[0].expires, now) then [rows[0]] else []) + Candidates(rows[1..], prefix, now)
  }

  /** The first candidate whose hash fits. */
  function FirstFit(rows: seq<Row>, token: string): Option<Row>
    decreases |rows|
  {
    if rows == [] then None else if rows[0].token == token then Some(rows[0]) else FirstFit(rows[1..], token)
  }

  /** The lookup the server does. */
  function Validate(s: State, token: string): Option<Row> {
    if |token| < PREFIX_LENGTH then None else FirstFit(Candidates(s.rows, token[..PREFIX_LENGTH], s.now), token)
  }

  /** What it stands for: the row, of all there are, that holds the token and has not expired. */
  ghost predicate ScanFinds(s: State, token: string, row: Row) {
    row in s.rows && row.token == token && (row.expires.Some? ==> s.now < row.expires.value)
  }

  /** A token shorter than a prefix is nobody's. */
  lemma ShortIsUnknown(s: State, token: string)
    requires |token| < 12
    ensures Validate(s, token) == None
  {
  }

  // --- what every step keeps ---------------------------------------------------------------

  predicate Issued(row: Row) {
    |row.token| >= PREFIX_LENGTH && row.prefix == row.token[..PREFIX_LENGTH]
  }

  ghost predicate Inv(s: State) {
    && (forall row :: row in s.rows ==> Issued(row) && row.id < s.next)
    && Unique(s.rows)
  }

  /** The token of a new row was never drawn before. */
  predicate DrawsFresh(s: State, e: Event) {
    e.Create? ==> |e.token| >= PREFIX_LENGTH && forall i :: 0 <= i < |s.rows| ==> s.rows[i].token != e.token
  }

  predicate AllFresh(s: State, es: seq<Event>)
    decreases |es|
  {
    es == [] || (DrawsFresh(s, es[0]) && AllFresh(Step(s, es[0]), es[1..]))
  }

  predicate Unique(rows: seq<Row>) {
    forall i, j :: 0 <= i < j < |rows| ==> rows[i].token != rows[j].token && rows[i].id != rows[j].id
  }

  lemma {:induction false} WithoutIs(rows: seq<Row>, id: int, userId: int)
    ensures forall row :: row in Without(rows, id, userId) <==> row in rows && !(row.id == id && row.userId == userId)
    decreases |rows|
  {
    if rows != [] {
      WithoutIs(rows[1..], id, userId);
      assert rows == [rows[0]] + rows[1..];
    }
  }

  lemma ConsUnique(row: Row, rest: seq<Row>)
    requires Unique(rest) && forall other :: other in rest ==> other.token != row.token && other.id != row.id
    ensures Unique([row] + rest)
  {
  }

  lemma {:induction false} WithoutUnique(rows: seq<Row>, id: int, userId: int)
    requires Unique(rows)
    ensures Unique(Without(rows, id, userId))
    decreases |rows|
  {
    if rows != [] {
      var rest := Without(rows[1..], id, userId);
      WithoutUnique(rows[1..], id, userId);
      WithoutIs(rows[1..], id, userId);
      assert forall other :: other in rest ==> other in rows[1..];
      ConsUnique(rows[0], rest);
      assert [] + rest == rest;
    }
  }

  lemma StepKeeps(s: State, e: Event)
    requires Inv(s) && DrawsFresh(s, e)
    ensures Inv(Step(s, e))
  {
    match e
    case Revoke(id, userId) =>
      WithoutIs(s.rows, id, userId);
      WithoutUnique(s.rows, id, userId);
    case Create(userId, token, expires) =>
      forall i | 0 <= i < |s.rows|
        ensures s.rows[i].id != s.next
      {
        assert s.rows[i] in s.rows;
      }
    case Clock(now) =>
  }

  lemma {:induction false} ExecKeeps(s: State, es: seq<Event>)
    requires Inv(s) && AllFresh(s, es)
    ensures Inv(Exec(s, es))
    decreases |es|
  {
    if es != [] {
      StepKeeps(s, es[0]);
      ExecKeeps(Step(s, es[0]), es[1..]);
    }
  }

  // --- the index refines the scan --------------------------------------------------------------

  lemma {:induction false} CandidatesAre(rows: seq<Row>, prefix: string, now: int)
    ensures forall row :: row in Candidates(rows, prefix, now) <==> row in rows && row.prefix == prefix && Current(row.expires, now)
    decreases |rows|
  {
    if rows != [] {
      CandidatesAre(rows[1..], prefix, now);
      assert rows == [rows[0]] + rows[1..];
    }
  }

  lemma {:induction false} FirstFitIs(rows: seq<Row>, token: string)
    ensures FirstFit(rows, token).Some? ==> FirstFit(rows, token).value in rows && FirstFit(rows, token).value.token == token
    ensures FirstFit(rows, token).None? ==> forall row :: row in rows ==> row.token != token
    decreases |rows|
  {
    if rows != [] {
      FirstFitIs(rows[1..], token);
      assert rows == [rows[0]] + rows[1..];
    }
  }

  lemma OneHolder(s: State, a: Row, b: Row)
    requires Inv(s) && a in s.rows && b in s.rows && (a.token == b.token || a.id == b.id)
    ensures a == b
  {
    var i :| 0 <= i < |s.rows| && s.rows[i] == a;
    var j :| 0 <= j < |s.rows| && s.rows[j] == b;
    assert i == j;
  }

  /** After every run the lookup answers exactly the row that a scan of all of them would, and there is at most one. */
  lemma IndexRefinesScan(es: seq<Event>, token: string, row: Row)
    requires AllFresh(NEW, es)
    ensures var s := Exec(NEW, es); Validate(s, token) == Some(row) <==> ScanFinds(s, token, row)
  {
    ExecKeeps(NEW, es);
    LookupIs(Exec(NEW, es), token, row);
  }

  lemma LookupIs(s: State, token: string, row: Row)
    requires Inv(s)
    ensures Validate(s, token) == Some(row) <==> ScanFinds(s, token, row)
  {
    if |token| >= PREFIX_LENGTH {
      var some := Candidates(s.rows, token[..PREFIX_LENGTH], s.now);
      CandidatesAre(s.rows, token[..PREFIX_LENGTH], s.now);
      FirstFitIs(some, token);
      if ScanFinds(s, token, row) {
        assert row in some;
        OneHolder(s, row, FirstFit(some, token).value);
      }
    }
  }

  // --- the life of a token ------------------------------------------------------------------------

  /** Only its owner's revocation takes a row away, and nothing changes it. */
  lemma {:induction false} RowStays(s: State, es: seq<Event>, row: Row)
    requires Inv(s) && AllFresh(s, es) && row.id < s.next
    ensures row in Exec(s, es).rows <==> row in s.rows && Revoke(row.id, row.userId) !in es
    decreases |es|
  {
    if es != [] {
      var t := Step(s, es[0]);
      StepKeeps(s, es[0]);
      if es[0].Revoke? {
        WithoutIs(s.rows, es[0].id, es[0].userId);
      }
      assert row in t.rows <==> row in s.rows && es[0] != Revoke(row.id, row.userId);
      RowStays(t, es[1..], row);
      assert es == [es[0]] + es[1..];
    }
  }

  /**
   An issued token resolves to its owner's row until that owner revokes it or it expires, whatever
   else is issued and revoked meanwhile; revocations by anybody else do nothing to it.
   */
  lemma IssuedTokenResolves(before: seq<Event>, userId: int, token: string, expires: Option<int>, after: seq<Event>)
    requires AllFresh(NEW, before)
    requires var s := Exec(NEW, before); DrawsFresh(s, Create(userId, token, expires)) && AllFresh(Step(s, Create(userId, token, expires)), after)
    ensures var s := Exec(NEW, before);
            var t := Exec(Step(s, Create(userId, token, expires)), after);
            var row := Row(s.next, userId, token, token[..12], expires);
            Validate(t, token) == Some(row) <==>
              Revoke(s.next, userId) !in after && (expires.None? || t.now < expires.value)
  {
    ExecKeeps(NEW, before);
    var s := Exec(NEW, before);
    var issued := Step(s, Create(userId, token, expires));
    var row := Row(s.next, userId, token, PrefixOf(token), expires);
    StepKeeps(s, Create(userId, token, expires));
    assert issued.rows[|s.rows|] == row;
    RowStays(issued, after, row);
    ExecKeeps(issued, after);
    LookupIs(Exec(issued, after), token, row);
  }

  /** And at any time after that: the token is good exactly before it expires. */
  lemma ExpiryDecides(before: seq<Event>, userId: int, token: string, expires: Option<int>, after: seq<Event>, now: int)
    requires AllFresh(NEW, before)
    requires var s := Exec(NEW, before); DrawsFresh(s, Create(userId, token, expires)) && AllFresh(Step(s, Create(userId, token, expires)), after)
    ensures var s := Exec(NEW, before);
            var t := Step(Exec(Step(s, Create(userId, token, expires)), after), Clock(now));
            Validate(t, token) == Some(Row(s.next, userId, token, token[..12], expires)) <==>
              Revoke(s.next, userId) !in after && (expires.None? || now < expires.value)
  {
    ExecKeeps(NEW, before);
    var s := Exec(NEW, before);
    var issued := Step(s, Create(userId, token, expires));
    var row := Row(s.next, userId, token, PrefixOf(token), expires);
    StepKeeps(s, Create(userId, token, expires));
    assert issued.rows[|s.rows|] == row;
    RowStays(issued, after, row);
    ExecKeeps(issued, after);
    StepKeeps(Exec(issued, after), Clock(now));
    LookupIs(Step(Exec(issued, after), Clock(now)), token, row);
  }

  // --- the store in place ----------------------------------------------------------------------------

  datatype Answer = Found(userId: int, id: int) | NotFound | UserError

  class PatStore {
    var rows: seq<Row>
    var next: int
    var now: int
    var users: set<int>

    ghost function View(): State
      reads this
    {
      State(rows, next, now)
    }

    constructor ()
      ensures View() == NEW && users == {}
    {
      rows, next, now, users := [], 0, 0, {};
    }

    method CreatePAT(userId: int, token: string, expires: Option<int>) returns (row: Row)
      requires |token| >= PREFIX_LENGTH
      modifies this`rows, this`next
      ensures View() == Step(old(View()), Create(userId, token, expires))
      ensures row in rows && row.id == old(next) && row.userId == userId && row.token == token && row.prefix == token[..12]
    {
      row := Row(next, userId, token, token[..12], expires);
      rows, next := rows + [row], next + 1;
    }

    method ValidatePAT(token: string) returns (answer: Answer)
      requires Inv(View())
      ensures answer.NotFound? <==> forall row :: !ScanFinds(View(), token, row)
      ensures answer.Found? ==> exists row :: ScanFinds(View(), token, row) && row.userId in users && answer == Found(row.userId, row.id)
      ensures answer.UserError? ==> exists row :: ScanFinds(View(), token, row) && row.userId !in users
    {
      if |token| < 12 {
        return NotFound;
      }
      var candidates := Candidates(rows, token[..12], now);
      CandidatesAre(rows, token[..12], now);
      var i := 0;
      while i < |candidates|
        invariant 0 <= i <= |candidates|
        invariant forall k :: 0 <= k < i ==> candidates[k].token != token
      {
        var pat := candidates[i];
        if pat.token == token {
          assert pat in candidates;
          assert ScanFinds(View(), token, pat);
          answer := if pat.userId in users then Found(pat.userId, pat.id) else UserError;
          return;
        }
        i := i + 1;
      }
      answer := NotFound;
    }

    method RevokePAT(id: int, userId: int) returns (ok: bool)
      modifies this`rows
      ensures View() == Step(old(View()), Revoke(id, userId))
      ensures ok <==> exists row :: row in old(rows) && row.id == id && row.userId == userId
    {
      WithoutIs(rows, id, userId);
      var kept := Without(rows, id, userId);
      WithoutShorter(rows, id, userId);
      ok := |kept| < |rows|;
      rows := kept;
    }
  }

  /** A delete affects rows exactly when one matches. */
  lemma {:induction false} WithoutShorter(rows: seq<Row>, id: int, userId: int)
    ensures |Without(rows, id, userId)| <= |rows|
    ensures |Without(rows, id, userId)| < |rows| <==> exists row :: row in rows && row.id == id && row.userId == userId
    decreases |rows|
  {
    if rows != [] {
      WithoutShorter(rows[1..], id, userId);
      assert rows == [rows[0]] + rows[1..];
      assert rows[0].id == id && rows[0].userId == userId ==> rows[0] in rows;
    }
  }
}
