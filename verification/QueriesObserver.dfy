/**
 An observer of several queries at once: how `setQueries` matches the new queries with the old
 observers, and which observers it holds subscriptions on.

 A query is its hash and an observer is a number.  `subs` counts the live subscriptions on each.
 */
module QueriesObserver {
  import opened Options

  // --- matching, said without queues -----------------------------------------------------

  /** The observers of a hash, oldest first. */
  function Olds(observers: seq<int>, hashOf: map<int, string>, h: string): seq<int>
    decreases |observers|
  {
    if observers == [] then []
    else
      var last := observers[|observers| - 1];
      Olds(observers[..|observers| - 1], hashOf, h) + if last in hashOf && hashOf[last] == h then [last] else []
  }

  function Times(queries: seq<string>, h: string): nat
    decreases |queries|
  {
    if queries == [] then 0
    else Times(queries[..|queries| - 1], h) + if queries[|queries| - 1] == h then 1 else 0
  }

  /** The old observer for query i: the k-th query of a hash gets the k-th observer of it; an empty hash gets none. */
  function Assigned(observers: seq<int>, hashOf: map<int, string>, queries: seq<string>, i: int): Option<int>
    requires 0 <= i < |queries|
  {
    var olds, k := Olds(observers, hashOf, queries[i]), Times(queries[..i], queries[i]);
    if queries[i] != "" && k < |olds| then Some(olds[k]) else None
  }

  /** Which queries get a new observer. */
  function News(observers: seq<int>, hashOf: map<int, string>, queries: seq<string>): seq<bool> {
    seq(|queries|, i requires 0 <= i < |queries| => Assigned(observers, hashOf, queries, i).None?)
  }

  function CountTrue(flags: seq<bool>, i: int): nat
    requires 0 <= i <= |flags|
    decreases i
  {
    if i == 0 then 0 else CountTrue(flags, i - 1) + if flags[i - 1] then 1 else 0
  }

  /** How many of the first i queries get a new observer. */
  function Fresh(observers: seq<int>, hashOf: map<int, string>, queries: seq<string>, i: int): nat
    requires 0 <= i <= |queries|
  {
    CountTrue(News(observers, hashOf, queries), i)
  }

  function MatchAt(observers: seq<int>, hashOf: map<int, string>, queries: seq<string>, next: int, i: int): int
    requires 0 <= i < |queries|
  {
    match Assigned(observers, hashOf, queries, i)
    case Some(o) => o
    case None => next + Fresh(observers, hashOf, queries, i)
  }

  function Match(observers: seq<int>, hashOf: map<int, string>, queries: seq<string>, next: int): seq<int> {
    seq(|queries|, i requires 0 <= i < |queries| => MatchAt(observers, hashOf, queries, next, i))
  }

  // --- facts about the matching ---------------------------------------------------------------

  predicate Distinct(xs: seq<int>) {
    forall i, j :: 0 <= i < j < |xs| ==> xs[i] != xs[j]
  }

  predicate Known(observers: seq<int>, hashOf: map<int, string>, next: int) {
    Distinct(observers) && forall i :: 0 <= i < |observers| ==> observers[i] in hashOf && observers[i] < next
  }

  lemma {:induction false} OldsAre(observers: seq<int>, hashOf: map<int, string>, h: string)
    requires Distinct(observers)
    ensures Distinct(Olds(observers, hashOf, h))
    ensures forall o :: o in Olds(observers, hashOf, h) <==> o in observers && o in hashOf && hashOf[o] == h
    decreases |observers|
  {
    if observers != [] {
      var init := observers[..|observers| - 1];
      OldsAre(init, hashOf, h);
      assert observers == init + [observers[|observers| - 1]];
      assert observers[|observers| - 1] !in init;
    }
  }

  lemma {:induction false} TimesGrow(queries: seq<string>, i: int, j: int, h: string)
    requires 0 <= i <= j <= |queries|
    ensures Times(queries[..i], h) <= Times(queries[..j], h)
    ensures i < j && queries[i] == h ==> Times(queries[..i], h) < Times(queries[..j], h)
    decreases j
  {
    if i < j {
      assert queries[..j][..j - 1] == queries[..j - 1];
      TimesGrow(queries, i, j - 1, h);
    }
  }

  lemma {:induction false} CountGrows(flags: seq<bool>, i: int, j: int)
    requires 0 <= i <= j <= |flags|
    ensures CountTrue(flags, i) <= CountTrue(flags, j)
    ensures i < j && flags[i] ==> CountTrue(flags, i) < CountTrue(flags, j)
    decreases j
  {
    if i < j {
      CountGrows(flags, i, j - 1);
    }
  }

  /** What one match is: an old observer of the query's own hash, or a number not in use. */
  lemma MatchIs(observers: seq<int>, hashOf: map<int, string>, queries: seq<string>, next: int, i: int)
    requires Known(observers, hashOf, next) && 0 <= i < |queries|
    ensures var o := MatchAt(observers, hashOf, queries, next, i);
            && (o in observers <==> Assigned(observers, hashOf, queries, i).Some?)
            && (o in observers ==> hashOf[o] == queries[i] != "")
            && (o !in observers ==> next <= o < next + Fresh(observers, hashOf, queries, |queries|))
  {
    OldsAre(observers, hashOf, queries[i]);
    CountGrows(News(observers, hashOf, queries), i, |queries|);
    var a := Assigned(observers, hashOf, queries, i);
    if a.Some? {
      assert a.value in Olds(observers, hashOf, queries[i]);
    } else {
      assert next <= MatchAt(observers, hashOf, queries, next, i);
    }
  }

  /** The new observers are pairwise distinct. */
  lemma MatchDistinct(observers: seq<int>, hashOf: map<int, string>, queries: seq<string>, next: int)
    requires Known(observers, hashOf, next)
    ensures Distinct(Match(observers, hashOf, queries, next))
  {
    forall i, j | 0 <= i < j < |queries|
      ensures MatchAt(observers, hashOf, queries, next, i) != MatchAt(observers, hashOf, queries, next, j)
    {
      MatchIs(observers, hashOf, queries, next, i);
      MatchIs(observers, hashOf, queries, next, j);
      if queries[i] == queries[j] {
        TimesGrow(queries, i, j, queries[i]);
        OldsAre(observers, hashOf, queries[i]);
      }
      CountGrows(News(observers, hashOf, queries), i, j);
    }
  }

  /** How many of the first i queries have hash h and keep an old observer. */
  function Reused(observers: seq<int>, hashOf: map<int, string>, queries: seq<string>, i: int, h: string): nat
    requires 0 <= i <= |queries|
    decreases i
  {
    if i == 0 then 0
    else
      Reused(observers, hashOf, queries, i - 1, h) +
      if queries[i - 1] == h && Assigned(observers, hashOf, queries, i - 1).Some? then 1 else 0
  }

  function Min(a: int, b: int): int { if a < b then a else b }

  lemma {:induction false} ReusedPrefix(observers: seq<int>, hashOf: map<int, string>, queries: seq<string>, i: int, h: string)
    requires 0 <= i <= |queries| && h != ""
    ensures Reused(observers, hashOf, queries, i, h) == Min(|Olds(observers, hashOf, h)|, Times(queries[..i], h))
    decreases i
  {
    if i > 0 {
      ReusedPrefix(observers, hashOf, queries, i - 1, h);
      assert queries[..i][..i - 1] == queries[..i - 1];
    }
  }

  /** Per hash exactly as many old observers are kept as there are both old observers and queries of it. */
  lemma ReusesMin(observers: seq<int>, hashOf: map<int, string>, queries: seq<string>, h: string)
    ensures Reused(observers, hashOf, queries, |queries|, h) ==
            if h == "" then 0 else Min(|Olds(observers, hashOf, h)|, Times(queries, h))
  {
    if h != "" {
      ReusedPrefix(observers, hashOf, queries, |queries|, h);
      assert queries[..|queries|] == queries;
    } else {
      NoneForEmpty(observers, hashOf, queries, |queries|);
    }
  }

  lemma {:induction false} NoneForEmpty(observers: seq<int>, hashOf: map<int, string>, queries: seq<string>, i: int)
    requires 0 <= i <= |queries|
    ensures Reused(observers, hashOf, queries, i, "") == 0
    decreases i
  {
    if i > 0 {
      NoneForEmpty(observers, hashOf, queries, i - 1);
    }
  }

  /** Where an observer stands among those of its hash: as many come before it as before it in the list. */
  lemma {:induction false} RankIs(observers: seq<int>, hashOf: map<int, string>, h: string, p: int)
    requires 0 <= p < |observers| && observers[p] in hashOf && hashOf[observers[p]] == h
    ensures var k := |Olds(observers[..p], hashOf, h)|;
            k < |Olds(observers, hashOf, h)| && Olds(observers, hashOf, h)[k] == observers[p]
    decreases |observers|
  {
    var n := |observers| - 1;
    if p == n {
      assert observers[..p] == observers[..n];
    } else {
      RankIs(observers[..n], hashOf, h, p);
      assert observers[..n][..p] == observers[..p];
    }
  }

  /** Each count up to the number of a hash's queries is reached by one of them. */
  lemma {:induction false} CountReached(queries: seq<string>, h: string, k: nat) returns (i: int)
    requires k < Times(queries, h)
    ensures 0 <= i < |queries| && queries[i] == h && Times(queries[..i], h) == k
    decreases |queries|
  {
    var n := |queries| - 1;
    if k < Times(queries[..n], h) {
      i := CountReached(queries[..n], h, k);
      assert queries[..n][..i] == queries[..i];
    } else {
      i := n;
    }
  }

  /** Of each hash the first observers are kept, as many as there are queries of it. */
  lemma KeptIff(observers: seq<int>, hashOf: map<int, string>, queries: seq<string>, next: int, p: int)
    requires Known(observers, hashOf, next) && 0 <= p < |observers|
    ensures var h := hashOf[observers[p]];
            observers[p] in Match(observers, hashOf, queries, next) <==>
            h != "" && |Olds(observers[..p], hashOf, h)| < Times(queries, h)
  {
    var o, h, all := observers[p], hashOf[observers[p]], Match(observers, hashOf, queries, next);
    var k := |Olds(observers[..p], hashOf, h)|;
    RankIs(observers, hashOf, h, p);
    OldsAre(observers, hashOf, h);
    if o in all {
      var i :| 0 <= i < |queries| && all[i] == o;
      MatchIs(observers, hashOf, queries, next, i);
      assert queries[i] == h && Times(queries[..i], h) == k;
      TimesGrow(queries, i, |queries|, h);
      assert queries[..|queries|] == queries;
    }
    if h != "" && k < Times(queries, h) {
      var i := CountReached(queries, h, k);
      assert all[i] == o;
    }
  }

  /** And they are handed out in their order: of two queries of a hash the earlier one gets the earlier observer. */
  lemma FirstComeFirstServed(observers: seq<int>, hashOf: map<int, string>, queries: seq<string>, next: int, i: int, j: int, p: int, q: int)
    requires Known(observers, hashOf, next) && 0 <= i < j < |queries| && queries[i] == queries[j]
    requires 0 <= p < |observers| && observers[p] == MatchAt(observers, hashOf, queries, next, i)
    requires 0 <= q < |observers| && observers[q] == MatchAt(observers, hashOf, queries, next, j)
    ensures p < q
  {
    var h := queries[i];
    MatchIs(observers, hashOf, queries, next, i);
    MatchIs(observers, hashOf, queries, next, j);
    TimesGrow(queries, i, j, h);
    RankIs(observers, hashOf, h, p);
    RankIs(observers, hashOf, h, q);
    OldsAre(observers, hashOf, h);
    if q <= p {
      RankGrows(observers, hashOf, h, q, p);
    }
  }

  lemma {:induction false} RankGrows(observers: seq<int>, hashOf: map<int, string>, h: string, p: int, q: int)
    requires 0 <= p <= q <= |observers|
    ensures |Olds(observers[..p], hashOf, h)| <= |Olds(observers[..q], hashOf, h)|
    decreases q
  {
    if p < q {
      assert observers[..q][..q - 1] == observers[..q - 1];
      RankGrows(observers, hashOf, h, p, q - 1);
    }
  }

  predicate Serves(observers: seq<int>, hashOf: map<int, string>, queries: seq<string>) {
    |observers| == |queries| && forall i :: 0 <= i < |queries| ==> observers[i] in hashOf && hashOf[observers[i]] == queries[i]
  }

  lemma {:induction false} OldsSplit(observers: seq<int>, hashOf: map<int, string>, queries: seq<string>, n: int, h: string)
    requires Serves(observers, hashOf, queries) && 0 <= n <= |observers|
    ensures |Olds(observers[..n], hashOf, h)| == Times(queries[..n], h)
    ensures Olds(observers[..n], hashOf, h) <= Olds(observers, hashOf, h)
    decreases |observers| - n, n
  {
    if n > 0 {
      assert observers[..n][..n - 1] == observers[..n - 1] && queries[..n][..n - 1] == queries[..n - 1];
      OldsCount(observers, hashOf, queries, n, h);
    } else {
      assert observers[..0] == [] && queries[..0] == [];
    }
    if n < |observers| {
      OldsSplit(observers, hashOf, queries, n + 1, h);
      assert observers[..n + 1][..n] == observers[..n];
    } else {
      assert observers[..n] == observers;
    }
  }

  lemma {:induction false} OldsCount(observers: seq<int>, hashOf: map<int, string>, queries: seq<string>, n: int, h: string)
    requires Serves(observers, hashOf, queries) && 0 <= n <= |observers|
    ensures |Olds(observers[..n], hashOf, h)| == Times(queries[..n], h)
    decreases n
  {
    if n > 0 {
      assert observers[..n][..n - 1] == observers[..n - 1] && queries[..n][..n - 1] == queries[..n - 1];
      OldsCount(observers, hashOf, queries, n - 1, h);
    }
  }

  /** Setting the same queries again keeps every observer where it is; only an empty hash always gets a new one. */
  lemma SameQueriesSameObservers(observers: seq<int>, hashOf: map<int, string>, queries: seq<string>, next: int)
    requires Known(observers, hashOf, next) && Serves(observers, hashOf, queries)
    ensures Match(observers, hashOf, queries, next) == observers <==> "" !in queries
  {
    forall i | 0 <= i < |queries| && queries[i] != ""
      ensures MatchAt(observers, hashOf, queries, next, i) == observers[i]
    {
      OldsSplit(observers, hashOf, queries, i, queries[i]);
      OldsSplit(observers, hashOf, queries, i + 1, queries[i]);
      assert observers[..i + 1][..i] == observers[..i];
    }
    forall i | 0 <= i < |queries| && queries[i] == ""
      ensures MatchAt(observers, hashOf, queries, next, i) != observers[i]
    {
      MatchIs(observers, hashOf, queries, next, i);
    }
    if "" in queries {
      var i :| 0 <= i < |queries| && queries[i] == "";
      assert Match(observers, hashOf, queries, next)[i] != observers[i];
    }
  }

  // --- subscriptions -----------------------------------------------------------------------------

  datatype State = State(observers: seq<int>, hashOf: map<int, string>, listeners: set<int>, subs: map<int, int>, next: int)

  datatype Event =
    | Subscribe(l: int)
    | Unsubscribe(l: int)
    | Destroy
    | SetQueries(queries: seq<string>)

  const NEW := State([], map[], {}, map[], 0)

  function Get(subs: map<int, int>, x: int): int {
    if x in subs then subs[x] else 0
  }

  function SubscribeTo(subs: map<int, int>, xs: seq<int>): map<int, int>
    decreases |xs|
  {
    if xs == [] then subs
    else
      var init, last := SubscribeTo(subs, xs[..|xs| - 1]), xs[|xs| - 1];
      init[last := Get(init, last) + 1]
  }

  /** Destroying an observer drops every subscription on it. */
  function DestroyThese(subs: map<int, int>, xs: seq<int>): map<int, int> {
    map x | x in subs && x !in xs :: subs[x]
  }

  function Difference(xs: seq<int>, ys: seq<int>): seq<int>
    decreases |xs|
  {
    if xs == [] then []
    else Difference(xs[..|xs| - 1], ys) + if xs[|xs| - 1] in ys then [] else [xs[|xs| - 1]]
  }

  function WithHashes(hashOf: map<int, string>, observers: seq<int>, queries: seq<string>): map<int, string>
    requires |observers| == |queries|
    decreases |observers|
  {
    if observers == [] then hashOf
    else
      var n := |observers| - 1;
      WithHashes(hashOf, observers[..n], queries[..n])[observers[n] := queries[n]]
  }

  function SetQueriesStep(s: State, queries: seq<string>): State {
    var found := Match(s.observers, s.hashOf, queries, s.next);
    if found == s.observers then s
    else
      var subs :=
        if s.listeners == {} then s.subs
        else SubscribeTo(DestroyThese(s.subs, Difference(s.observers, found)), Difference(found, s.observers));
      State(found, WithHashes(s.hashOf, found, queries), s.listeners, subs,
            s.next + Fresh(s.observers, s.hashOf, queries, |queries|))
  }

  function Step(s: State, e: Event): State {
    match e
    case Subscribe(l) =>
      s.(listeners := s.listeners + {l},
         subs := if s.listeners + {l} == {l} then SubscribeTo(s.subs, s.observers) else s.subs)
    case Unsubscribe(l) =>
      s.(listeners := s.listeners - {l},
         subs := if s.listeners - {l} == {} then DestroyThese(s.subs, s.observers) else s.subs)
    case Destroy => s.(listeners := {}, subs := DestroyThese(s.subs, s.observers))
    case SetQueries(queries) => SetQueriesStep(s, queries)
  }

  function Exec(s: State, es: seq<Event>): State
    decreases |es|
  {
    if es == [] then s else Exec(Step(s, es[0]), es[1..])
  }

  /** Mounted, the observers subscribed to are exactly the current ones; unmounted there are none. */
  ghost predicate SubscribedToCurrent(s: State) {
    && (s.listeners == {} ==> s.subs == map[])
    && (s.listeners != {} ==> forall x :: x in s.subs <==> x in s.observers)
    && (forall x :: x in s.subs ==> s.subs[x] >= 1)
  }

  /** And once each. */
  ghost predicate Once(s: State) {
    forall x :: x in s.subs ==> s.subs[x] == 1
  }

  ghost predicate Inv(s: State) {
    Known(s.observers, s.hashOf, s.next) && SubscribedToCurrent(s)
  }

  lemma {:induction false} SubscribeAdds(subs: map<int, int>, xs: seq<int>)
    requires Distinct(xs)
    ensures forall x :: x in SubscribeTo(subs, xs) <==> x in subs || x in xs
    ensures forall x :: Get(SubscribeTo(subs, xs), x) == Get(subs, x) + if x in xs then 1 else 0
    decreases |xs|
  {
    if xs != [] {
      var n := |xs| - 1;
      SubscribeAdds(subs, xs[..n]);
      assert xs == xs[..n] + [xs[n]];
      assert xs[n] !in xs[..n];
    }
  }

  lemma {:induction false} DifferenceIs(xs: seq<int>, ys: seq<int>)
    requires Distinct(xs)
    ensures forall x :: x in Difference(xs, ys) <==> x in xs && x !in ys
    ensures Distinct(Difference(xs, ys))
    decreases |xs|
  {
    if xs != [] {
      var n := |xs| - 1;
      DifferenceIs(xs[..n], ys);
      assert xs == xs[..n] + [xs[n]];
      assert xs[n] !in xs[..n];
    }
  }

  lemma {:induction false} WithHashesIs(hashOf: map<int, string>, observers: seq<int>, queries: seq<string>)
    requires |observers| == |queries| && Distinct(observers)
    ensures var h := WithHashes(hashOf, observers, queries);
            && (forall x :: x in h <==> x in hashOf || x in observers)
            && (forall i :: 0 <= i < |observers| ==> observers[i] in h && h[observers[i]] == queries[i])
    decreases |observers|
  {
    if observers != [] {
      var n := |observers| - 1;
      var before := WithHashes(hashOf, observers[..n], queries[..n]);
      WithHashesIs(hashOf, observers[..n], queries[..n]);
      assert observers == observers[..n] + [observers[n]];
      forall i | 0 <= i < n
        ensures observers[i] in before && before[observers[i]] == queries[i] && observers[i] != observers[n]
      {
        assert observers[..n][i] == observers[i] && queries[..n][i] == queries[i];
      }
    }
  }

  lemma MatchKnown(s: State, queries: seq<string>)
    requires Known(s.observers, s.hashOf, s.next)
    ensures var found := Match(s.observers, s.hashOf, queries, s.next);
            && Known(found, WithHashes(s.hashOf, found, queries), s.next + Fresh(s.observers, s.hashOf, queries, |queries|))
            && Serves(found, WithHashes(s.hashOf, found, queries), queries)
  {
    var found := Match(s.observers, s.hashOf, queries, s.next);
    MatchDistinct(s.observers, s.hashOf, queries, s.next);
    WithHashesIs(s.hashOf, found, queries);
    forall i | 0 <= i < |found|
      ensures found[i] < s.next + Fresh(s.observers, s.hashOf, queries, |queries|)
    {
      MatchIs(s.observers, s.hashOf, queries, s.next, i);
    }
  }

  lemma ResubscribeIs(s: State, found: seq<int>)
    requires Distinct(s.observers) && Distinct(found) && s.listeners != {} && SubscribedToCurrent(s)
    ensures var subs := SubscribeTo(DestroyThese(s.subs, Difference(s.observers, found)), Difference(found, s.observers));
            && (forall x :: x in subs <==> x in found)
            && (forall x :: x in subs ==> subs[x] == if x in s.observers then s.subs[x] else 1)
  {
    DifferenceIs(s.observers, found);
    DifferenceIs(found, s.observers);
    var kept := DestroyThese(s.subs, Difference(s.observers, found));
    SubscribeAdds(kept, Difference(found, s.observers));
    var subs := SubscribeTo(kept, Difference(found, s.observers));
    forall x | x in subs
      ensures subs[x] == if x in s.observers then s.subs[x] else 1
    {
      assert Get(subs, x) == Get(kept, x) + if x in Difference(found, s.observers) then 1 else 0;
    }
  }

  lemma SubscribeIs(s: State)
    requires Distinct(s.observers) && SubscribedToCurrent(s)
    ensures var subs := SubscribeTo(s.subs, s.observers);
            && (forall x :: x in subs <==> x in s.observers)
            && (forall x :: x in subs ==> subs[x] == Get(s.subs, x) + 1)
  {
    SubscribeAdds(s.subs, s.observers);
    var subs := SubscribeTo(s.subs, s.observers);
    forall x | x in subs
      ensures subs[x] == Get(s.subs, x) + 1
    {
      assert Get(subs, x) == Get(s.subs, x) + if x in s.observers then 1 else 0;
    }
  }

  /** Subscribing a listener that is already the only one subscribes to every observer again. */
  predicate Doubles(s: State, e: Event) {
    e.Subscribe? && s.listeners == {e.l} && s.observers != []
  }

  lemma SetQueriesKeeps(s: State, queries: seq<string>)
    requires Inv(s)
    ensures Inv(SetQueriesStep(s, queries))
    ensures Once(s) ==> Once(SetQueriesStep(s, queries))
  {
    var found := Match(s.observers, s.hashOf, queries, s.next);
    MatchKnown(s, queries);
    if found != s.observers && s.listeners != {} {
      ResubscribeIs(s, found);
    }
  }

  lemma StepKeeps(s: State, e: Event)
    requires Inv(s)
    ensures Inv(Step(s, e))
    ensures Once(s) ==> (Once(Step(s, e)) <==> !Doubles(s, e))
  {
    match e {
      case SetQueries(queries) => SetQueriesKeeps(s, queries);
      case Subscribe(l) =>
        SubscribeIs(s);
        assert s.listeners + {l} == {l} ==> s.listeners == {} || s.listeners == {l};
        if Doubles(s, e) {
          assert s.observers[0] in s.subs;
        }
      case _ =>
        assert forall x :: x in s.subs ==> x in s.observers;
        assert DestroyThese(s.subs, s.observers) == map[];
    }
  }

  predicate NeverDoubles(s: State, es: seq<Event>)
    decreases |es|
  {
    es == [] || (!Doubles(s, es[0]) && NeverDoubles(Step(s, es[0]), es[1..]))
  }

  /**
   After every run the observers are pairwise distinct and those subscribed to are exactly the current
   ones, or none when nobody listens; once each, unless a sole listener subscribed again.
   */
  lemma {:induction false} ExecKeeps(s: State, es: seq<Event>)
    requires Inv(s) && Once(s)
    ensures Inv(Exec(s, es))
    ensures NeverDoubles(s, es) ==> Once(Exec(s, es))
    decreases |es|
  {
    if es != [] {
      StepKeeps(s, es[0]);
      if Once(Step(s, es[0])) {
        ExecKeeps(Step(s, es[0]), es[1..]);
      } else {
        ExecKeepsInv(Step(s, es[0]), es[1..]);
      }
    }
  }

  lemma {:induction false} ExecKeepsInv(s: State, es: seq<Event>)
    requires Inv(s)
    ensures Inv(Exec(s, es))
    decreases |es|
  {
    if es != [] {
      StepKeeps(s, es[0]);
      ExecKeepsInv(Step(s, es[0]), es[1..]);
    }
  }

  lemma NewKeeps()
    ensures Inv(NEW) && Once(NEW)
  {
  }

  /** One query, and a listener that subscribes twice: its observer is subscribed to twice. */
  lemma SubscribingAgainDoubles()
    ensures Exec(NEW, [SetQueries(["q"]), Subscribe(1), Subscribe(1)]).subs == map[0 := 2]
  {
    var es := [SetQueries(["q"]), Subscribe(1), Subscribe(1)];
    assert Olds([], map[], "q") == [] && Match([], map[], ["q"], 0) == [0];
    var s1 := Step(NEW, es[0]);
    assert s1.observers == [0] && s1.subs == map[];
    assert [0][..0] == [];
    var s2 := Step(s1, es[1]);
    assert s2.subs == SubscribeTo(map[], [0]) == map[0 := 1];
    var s3 := Step(s2, es[2]);
    assert s3.subs == SubscribeTo(map[0 := 1], [0]) == map[0 := 2];
    assert es[1..] == [es[1], es[2]] && es[1..][1..] == [es[2]] && es[1..][1..][1..] == [];
    assert Exec(s2, [es[2]]) == s3;
  }

  // --- the queues of the matching ---------------------------------------------------------------------

  function QueueOf(queues: map<string, seq<int>>, h: string): seq<int> {
    if h in queues then queues[h] else []
  }

  ghost predicate Queued(queues: map<string, seq<int>>, observers: seq<int>, hashOf: map<int, string>) {
    "" !in queues && forall h {:trigger QueueOf(queues, h)} :: h != "" ==> QueueOf(queues, h) == Olds(observers, hashOf, h)
  }

  lemma QueuedSnoc(queues: map<string, seq<int>>, observers: seq<int>, hashOf: map<int, string>, o: int)
    requires Queued(queues, observers, hashOf) && o in hashOf
    ensures Queued(if hashOf[o] == "" then queues else queues[hashOf[o] := QueueOf(queues, hashOf[o]) + [o]], observers + [o], hashOf)
  {
    var more := if hashOf[o] == "" then queues else queues[hashOf[o] := QueueOf(queues, hashOf[o]) + [o]];
    assert (observers + [o])[..|observers|] == observers;
    forall h | h != ""
      ensures QueueOf(more, h) == Olds(observers + [o], hashOf, h)
    {
      assert QueueOf(queues, h) == Olds(observers, hashOf, h);
    }
  }

  /** After some queries each queue has lost one observer for each of them that took one. */
  ghost predicate Left(queues: map<string, seq<int>>, observers: seq<int>, hashOf: map<int, string>, queries: seq<string>) {
    "" !in queues && forall h {:trigger QueueOf(queues, h)} :: h != "" ==> QueueOf(queues, h) == Rest(Olds(observers, hashOf, h), Times(queries, h))
  }

  function Rest(xs: seq<int>, n: nat): seq<int> {
    if n <= |xs| then xs[n..] else []
  }

  lemma LeftSnoc(queues: map<string, seq<int>>, observers: seq<int>, hashOf: map<int, string>, queries: seq<string>, i: int)
    requires 0 <= i < |queries| && Left(queues, observers, hashOf, queries[..i])
    ensures var h, q := queries[i], QueueOf(queues, queries[i]);
            && Assigned(observers, hashOf, queries, i) == (if q != [] then Some(q[0]) else None)
            && Left(if q != [] then queues[h := q[1..]] else queues, observers, hashOf, queries[..i + 1])
  {
    assert queries[..i + 1] == queries[..i] + [queries[i]];
    var h, q := queries[i], QueueOf(queues, queries[i]);
    var less := if q != [] then queues[h := q[1..]] else queues;
    assert (queries[..i] + [h])[..i] == queries[..i];
    forall g | g != ""
      ensures QueueOf(less, g) == Rest(Olds(observers, hashOf, g), Times(queries[..i] + [h], g))
    {
      assert QueueOf(queues, g) == Rest(Olds(observers, hashOf, g), Times(queries[..i], g));
    }
  }

  lemma LeftAtFirst(queues: map<string, seq<int>>, observers: seq<int>, hashOf: map<int, string>, queries: seq<string>)
    requires Queued(queues, observers, hashOf)
    ensures Left(queues, observers, hashOf, queries[..0])
  {
    assert forall h :: Rest(Olds(observers, hashOf, h), 0) == Olds(observers, hashOf, h);
  }

  lemma MatchSnoc(observers: seq<int>, hashOf: map<int, string>, queries: seq<string>, next: int, i: int)
    requires 0 <= i < |queries|
    ensures var all := Match(observers, hashOf, queries, next);
            all[..i + 1] == all[..i] + [MatchAt(observers, hashOf, queries, next, i)]
  {
  }

  /** The first i queries are matched, `next0` having been the next number before. */
  ghost predicate Matched(queues: map<string, seq<int>>, observers: seq<int>, hashOf: map<int, string>, queries: seq<string>,
                          next0: int, next: int, found: seq<int>, i: int)
  {
    && 0 <= i <= |queries|
    && next == next0 + Fresh(observers, hashOf, queries, i)
    && found == Match(observers, hashOf, queries, next0)[..i]
    && Left(queues, observers, hashOf, queries[..i])
  }

  lemma MatchedSnoc(queues: map<string, seq<int>>, observers: seq<int>, hashOf: map<int, string>, queries: seq<string>,
                    next0: int, next: int, found: seq<int>, i: int)
    requires Matched(queues, observers, hashOf, queries, next0, next, found, i) && i < |queries|
    ensures var q := QueueOf(queues, queries[i]);
            && (q != [] ==> Matched(queues[queries[i] := q[1..]], observers, hashOf, queries, next0, next, found + [q[0]], i + 1))
            && (q == [] ==> Matched(queues, observers, hashOf, queries, next0, next + 1, found + [next], i + 1))
  {
    LeftSnoc(queues, observers, hashOf, queries, i);
    MatchSnoc(observers, hashOf, queries, next0, i);
  }

  // --- the observer in place -------------------------------------------------------------------------

  class Observer {
    var observers: seq<int>
    var hashOf: map<int, string>
    var listeners: set<int>
    var subs: map<int, int>
    var next: int

    ghost function View(): State
      reads this
    {
      State(observers, hashOf, listeners, subs, next)
    }

    constructor ()
      ensures View() == NEW
    {
      observers, hashOf, listeners, subs, next := [], map[], {}, map[], 0;
    }

    /** The old observers in one queue per hash. */
    method QueueObservers() returns (queues: map<string, seq<int>>)
      requires forall i :: 0 <= i < |observers| ==> observers[i] in hashOf
      ensures Queued(queues, observers, hashOf)
    {
      queues := map[];
      var i := 0;
      while i < |observers|
        invariant 0 <= i <= |observers|
        invariant Queued(queues, observers[..i], hashOf)
      {
        QueuedSnoc(queues, observers[..i], hashOf, observers[i]);
        assert observers[..i + 1] == observers[..i] + [observers[i]];
        var h := hashOf[observers[i]];
        if h != "" {
          queues := queues[h := (if h in queues then queues[h] else []) + [observers[i]]];
        }
        i := i + 1;
      }
      assert observers[..i] == observers;
    }

    /** The oldest observer left for a hash, or a new one. */
    method TakeObserver(queues: map<string, seq<int>>, h: string) returns (rest: map<string, seq<int>>, o: int)
      modifies this`next
      ensures var q := QueueOf(queues, h);
              if q != [] then o == q[0] && rest == queues[h := q[1..]] && next == old(next)
              else o == old(next) && rest == queues && next == old(next) + 1
    {
      if h in queues && queues[h] != [] {
        o, rest := queues[h][0], queues[h := queues[h][1..]];
      } else {
        o, rest := next, queues;
        next := next + 1;
      }
    }

    method FindMatchingObservers(queries: seq<string>) returns (found: seq<int>)
      requires forall i :: 0 <= i < |observers| ==> observers[i] in hashOf
      modifies this`next
      ensures found == Match(observers, hashOf, queries, old(next))
      ensures next == old(next) + Fresh(observers, hashOf, queries, |queries|)
    {
      var queues := QueueObservers();
      LeftAtFirst(queues, observers, hashOf, queries);
      found := [];
      var i := 0;
      while i < |queries|
        invariant Matched(queues, observers, hashOf, queries, old(next), next, found, i)
        decreases |queries| - i
      {
        var h := queries[i];
        MatchedSnoc(queues, observers, hashOf, queries, old(next), next, found, i);
        var o;
        queues, o := TakeObserver(queues, h);
        found := found + [o];
        i := i + 1;
      }
    }

    method DestroyAll(xs: seq<int>)
      modifies this`subs
      ensures subs == DestroyThese(old(subs), xs)
    {
      var i := 0;
      while i < |xs|
        invariant 0 <= i <= |xs|
        invariant subs == DestroyThese(old(subs), xs[..i])
      {
        assert xs[..i + 1] == xs[..i] + [xs[i]];
        subs := subs - {xs[i]};
        i := i + 1;
      }
      assert xs[..i] == xs;
    }

    method SubscribeAll(xs: seq<int>)
      modifies this`subs
      ensures subs == SubscribeTo(old(subs), xs)
    {
      var i := 0;
      while i < |xs|
        invariant 0 <= i <= |xs|
        invariant subs == SubscribeTo(old(subs), xs[..i])
      {
        assert xs[..i + 1][..i] == xs[..i];
        subs := subs[xs[i] := Get(subs, xs[i]) + 1];
        i := i + 1;
      }
      assert xs[..i] == xs;
    }

    method AddListener(l: int)
      modifies this`listeners, this`subs
      ensures View() == Step(old(View()), Subscribe(l))
    {
      listeners := listeners + {l};
      if |listeners| == 1 {
        assert listeners == {l} by { OnlyOne(listeners, l); }
        SubscribeAll(observers);
      } else {
        assert listeners != {l};
      }
    }

    method RemoveListener(l: int)
      modifies this`listeners, this`subs
      ensures View() == Step(old(View()), Unsubscribe(l))
    {
      listeners := listeners - {l};
      if listeners == {} {
        DestroyAll(observers);
      }
    }

    method SetTheQueries(queries: seq<string>)
      requires Inv(View())
      modifies this
      ensures View() == Step(old(View()), SetQueries(queries))
    {
      var previous := observers;
      var found := FindMatchingObservers(queries);
      if found == previous {
        NoneFresh(old(View()), queries, |queries|);
        return;
      }
      observers, hashOf := found, WithHashes(hashOf, found, queries);
      if listeners == {} {
        return;
      }
      DestroyAll(Difference(previous, found));
      SubscribeAll(Difference(found, previous));
    }
  }

  lemma OnlyOne(s: set<int>, x: int)
    requires x in s && |s| == 1
    ensures s == {x}
  {
    assert s - {x} == {} by { assert |s - {x}| == 0; }
  }

  /** When nothing moves, no observer was made. */
  lemma {:induction false} NoneFresh(s: State, queries: seq<string>, i: int)
    requires Known(s.observers, s.hashOf, s.next) && 0 <= i <= |queries|
    requires Match(s.observers, s.hashOf, queries, s.next) == s.observers
    ensures Fresh(s.observers, s.hashOf, queries, i) == 0
    decreases i
  {
    if i > 0 {
      NoneFresh(s, queries, i - 1);
      MatchIs(s.observers, s.hashOf, queries, s.next, i - 1);
      assert Match(s.observers, s.hashOf, queries, s.next)[i - 1] == s.observers[i - 1];
    }
  }
}
