/**
 Structural sharing: `replaceEqualDeep(a, b)` rebuilds `b` from the parts of `a` that did not change.

 A JSON value is a tree whose arrays and objects carry the identity of their node, so that `===`
 on references is equality of trees.  `Meaning` forgets identities and the order of keys.  A key
 that an object does not own reads as something that is neither `===` to nor nested in a JSON
 value; assigning the key "__proto__" to a fresh object creates no own property; and an own key
 "constructor" enters the test for plain objects.
 */
module StructuralSharing {
  import opened Options

  datatype Field = Field(key: string, value: Value)

  datatype Value =
    | Null
    | Bool(b: bool)
    | Num(n: real)
    | Str(s: string)
    | Arr(id: int, items: seq<Value>)
    | Obj(id: int, fields: seq<Field>)
  {
    predicate IsObject() { Arr? || Obj? }
  }

  const DEPTH_LIMIT := 500
  const PROTO := "__proto__"

  function Get(fields: seq<Field>, key: string): Option<Value> {
    if fields == [] then None
    else if fields[0].key == key then Some(fields[0].value)
    else Get(fields[1..], key)
  }

  predicate Has(fields: seq<Field>, key: string) {
    Get(fields, key).Some?
  }

  ghost predicate UniqueKeys(fields: seq<Field>) {
    forall i, j :: 0 <= i < j < |fields| ==> fields[i].key != fields[j].key
  }

  ghost predicate WellFormed(v: Value) {
    match v
    case Arr(_, items) => forall i :: 0 <= i < |items| ==> WellFormed(items[i])
    case Obj(_, fields) => UniqueKeys(fields) && forall i :: 0 <= i < |fields| ==> WellFormed(fields[i].value)
    case _ => true
  }

  /** Every node of `v` was allocated before `next`. */
  ghost predicate AllocatedBefore(v: Value, next: int) {
    match v
    case Arr(id, items) => id < next && forall i :: 0 <= i < |items| ==> AllocatedBefore(items[i], next)
    case Obj(id, fields) => id < next && forall i :: 0 <= i < |fields| ==> AllocatedBefore(fields[i].value, next)
    case _ => true
  }

  // --- the test for plain objects ------------------------------------------------

  datatype Plainness = Plain | NotPlain | Throws

  /** `isPlainObject`: an own "constructor" is asked for its "prototype", and that for "isPrototypeOf". */
  function IsPlain(v: Value): Plainness {
    if !v.Obj? then NotPlain
    else
      match Get(v.fields, "constructor")
      case None => Plain
      case Some(Null) => Throws
      case Some(Obj(_, ctor)) =>
        (match Get(ctor, "prototype")
         case Some(Obj(_, prot)) =>
           if Has(prot, "hasOwnProperty") then Throws
           else if Has(prot, "isPrototypeOf") then Plain
           else NotPlain
         case _ => NotPlain)
      case Some(_) => NotPlain
  }

  predicate BothPlain(a: Value, b: Value) {
    IsPlain(a).Plain? && IsPlain(b).Plain?
  }

  /** Whether an own key has the value `null`, or an object for a value that owns another key. */
  predicate OwnsObjectWith(fields: seq<Field>, key: string, inner: string) {
    Get(fields, key).Some? && Get(fields, key).value.Obj? && Has(Get(fields, key).value.fields, inner)
  }

  /**
   An object without an own key "constructor" is plain.  With one it passes only if that has a
   "prototype" owning "isPrototypeOf", and the test throws if it is null, or that prototype owns a
   "hasOwnProperty" to be called.
   */
  lemma PlainIff(id: int, fields: seq<Field>)
    ensures !Has(fields, "constructor") ==> IsPlain(Obj(id, fields)).Plain?
    ensures Has(fields, "constructor") ==>
              var ctor := Get(fields, "constructor").value;
              var calls := ctor.Obj? && OwnsObjectWith(ctor.fields, "prototype", "hasOwnProperty");
              && (IsPlain(Obj(id, fields)).Throws? <==> ctor.Null? || calls)
              && (IsPlain(Obj(id, fields)).Plain? <==>
                  !calls && ctor.Obj? && OwnsObjectWith(ctor.fields, "prototype", "isPrototypeOf"))
  {
  }

  // --- what a value means ----------------------------------------------------------

  datatype Json = JNull | JBool(b: bool) | JNum(n: real) | JStr(s: string) | JArr(items: seq<Json>) | JObj(fields: map<string, Json>)

  function Meaning(v: Value): Json
    decreases v, 1
  {
    match v
    case Null => JNull
    case Bool(b) => JBool(b)
    case Num(n) => JNum(n)
    case Str(s) => JStr(s)
    case Arr(_, items) => JArr(Items(items))
    case Obj(_, fields) => JObj(Fields(fields))
  }

  function Items(items: seq<Value>): (r: seq<Json>)
    ensures |r| == |items|
    ensures forall i :: 0 <= i < |items| ==> r[i] == Meaning(items[i])
    decreases items, 0
  {
    if items == [] then [] else [Meaning(items[0])] + Items(items[1..])
  }

  /** Of equal keys the first counts, as for `Get`. */
  function Fields(fields: seq<Field>): map<string, Json>
    decreases fields, 0
  {
    if fields == [] then map[] else Fields(fields[1..])[fields[0].key := Meaning(fields[0].value)]
  }

  // --- what the function does, slot by slot ----------------------------------------

  /** The old value's slot for the `i`-th slot of the new one. */
  function OldSlot(a: Value, b: Value, i: int): Option<Value>
    requires (a.Arr? && b.Arr? && 0 <= i < |b.items|) || (a.Obj? && b.Obj? && 0 <= i < |b.fields|)
  {
    if a.Arr? then (if i < |a.items| then Some(a.items[i]) else None)
    else Get(a.fields, b.fields[i].key)
  }

  function Size(v: Value): nat
    requires v.IsObject()
  {
    if v.Arr? then |v.items| else |v.fields|
  }

  function Slot(v: Value, i: int): (r: Value)
    requires v.IsObject() && 0 <= i < Size(v)
    ensures r < v
  {
    if v.Arr? then v.items[i] else v.fields[i].value
  }

  predicate Walks(a: Value, b: Value, depth: nat) {
    a != b && depth <= DEPTH_LIMIT && ((a.Arr? && b.Arr?) || BothPlain(a, b))
  }

  /** Two different values are walked down to five hundred levels, if both are arrays or both are plain objects. */
  lemma WalksIff(a: Value, b: Value, depth: nat)
    ensures Walks(a, b, depth) <==>
            a != b && depth <= 500 && ((a.Arr? && b.Arr?) || (a.Obj? && b.Obj? && IsPlain(a).Plain? && IsPlain(b).Plain?))
  {
  }

  /** The function returns `a` itself. */
  predicate Keeps(a: Value, b: Value, depth: nat)
    decreases b, 2, 0
  {
    a == b || (Walks(a, b, depth) && Size(a) == Size(b) && AllKept(a, b, depth, Size(b)))
  }

  predicate AllKept(a: Value, b: Value, depth: nat, n: nat)
    requires Walks(a, b, depth) && n <= Size(b)
    decreases b, 1, n
  {
    n == 0 || (AllKept(a, b, depth, n - 1) && KeepsSlot(a, b, depth, n - 1))
  }

  /** The `i`-th slot is counted as equal. */
  predicate KeepsSlot(a: Value, b: Value, depth: nat, i: int)
    requires Walks(a, b, depth) && 0 <= i < Size(b)
    decreases b, 0, 0
  {
    var was, now := OldSlot(a, b, i), Slot(b, i);
    was.Some? && (was.value == now || (was.value.IsObject() && now.IsObject() && Keeps(was.value, now, depth + 1)))
  }

  /** Whatever is rebuilt owns no key that an assignment would lose. */
  predicate Lossless(a: Value, b: Value, depth: nat)
    decreases b, 2, 0
  {
    Walks(a, b, depth) && !Keeps(a, b, depth) ==>
      (b.Obj? ==> !Has(b.fields, PROTO)) && AllLossless(a, b, depth, Size(b))
  }

  predicate AllLossless(a: Value, b: Value, depth: nat, n: nat)
    requires Walks(a, b, depth) && n <= Size(b)
    decreases b, 1, n
  {
    n == 0 || (AllLossless(a, b, depth, n - 1) && LosslessSlot(a, b, depth, n - 1))
  }

  predicate LosslessSlot(a: Value, b: Value, depth: nat, i: int)
    requires Walks(a, b, depth) && 0 <= i < Size(b)
    decreases b, 0, 0
  {
    var was, now := OldSlot(a, b, i), Slot(b, i);
    was.Some? && was.value.IsObject() && now.IsObject() ==> Lossless(was.value, now, depth + 1)
  }

  /** Some test for plain objects on the way throws a TypeError. */
  predicate Fails(a: Value, b: Value, depth: nat)
    decreases b, 2, 0
  {
    && a != b && depth <= DEPTH_LIMIT
    && if Walks(a, b, depth) then !NoneFails(a, b, depth, Size(b))
       else !(a.Arr? && b.Arr?) && (IsPlain(a).Throws? || (IsPlain(a).Plain? && IsPlain(b).Throws?))
  }

  predicate NoneFails(a: Value, b: Value, depth: nat, n: nat)
    requires Walks(a, b, depth) && n <= Size(b)
    decreases b, 1, n
  {
    n == 0 || (NoneFails(a, b, depth, n - 1) && !FailsSlot(a, b, depth, n - 1))
  }

  predicate FailsSlot(a: Value, b: Value, depth: nat, i: int)
    requires Walks(a, b, depth) && 0 <= i < Size(b)
    decreases b, 0, 0
  {
    var was, now := OldSlot(a, b, i), Slot(b, i);
    was.Some? && was.value.IsObject() && now.IsObject() && Fails(was.value, now, depth + 1)
  }

  /**
   What the function answers, up to the identities of new nodes: the old value where it is kept, the
   new one where the two are not walked, and otherwise a node whose slots are shared in turn.
   */
  predicate Shares(a: Value, b: Value, depth: nat, v: Value)
    decreases b, 2, 0
  {
    if !Walks(a, b, depth) then v == b
    else if Keeps(a, b, depth) then v == a
    else ((v.Arr? && b.Arr?) || (v.Obj? && b.Obj?)) && Size(v) <= Size(b) && AllShare(a, b, depth, v, Size(b))
  }

  predicate AllShare(a: Value, b: Value, depth: nat, v: Value, n: nat)
    requires Walks(a, b, depth) && ((v.Arr? && b.Arr?) || (v.Obj? && b.Obj?)) && n <= Size(b)
    decreases b, 1, n
  {
    n == 0 || (AllShare(a, b, depth, v, n - 1) && (Lost(b, n - 1) || ShareAt(a, b, depth, n - 1, OldSlot(v, b, n - 1))))
  }

  /** A key that no assignment creates. */
  predicate Lost(b: Value, i: int)
    requires b.IsObject() && 0 <= i < Size(b)
  {
    b.Obj? && b.fields[i].key == PROTO
  }

  /** A slot counted as equal holds the very value of the old slot. */
  predicate ShareAt(a: Value, b: Value, depth: nat, i: int, got: Option<Value>)
    requires Walks(a, b, depth) && 0 <= i < Size(b)
    decreases b, 0, 0
  {
    var was, now := OldSlot(a, b, i), Slot(b, i);
    && got.Some?
    && if KeepsSlot(a, b, depth, i) then got == was
       else if was.Some? && was.value.IsObject() && now.IsObject() then Shares(was.value, now, depth + 1, got.value)
       else got.value == now
  }

  // --- keeping the old value preserves the meaning -----------------------------------

  lemma {:induction false} FieldsGet(fields: seq<Field>, key: string)
    ensures key in Fields(fields) <==> Has(fields, key)
    ensures Has(fields, key) ==> Fields(fields)[key] == Meaning(Get(fields, key).value)
  {
    if fields != [] { FieldsGet(fields[1..], key); }
  }

  /** Where `Get` found its value. */
  lemma {:induction false} GetFinds(fields: seq<Field>, key: string) returns (j: int)
    ensures Has(fields, key) ==> 0 <= j < |fields| && fields[j] == Field(key, Get(fields, key).value)
    ensures !Has(fields, key) ==> forall i :: 0 <= i < |fields| ==> fields[i].key != key
  {
    if fields == [] {
      j := 0;
    } else if fields[0].key == key {
      j := 0;
    } else {
      j := GetFinds(fields[1..], key);
      if Has(fields, key) {
        j := j + 1;
      } else {
        assert forall i :: 1 <= i < |fields| ==> fields[i] == fields[1..][i - 1];
      }
    }
  }

  lemma {:induction false} GetAt(fields: seq<Field>, i: int)
    requires UniqueKeys(fields) && 0 <= i < |fields|
    ensures Get(fields, fields[i].key) == Some(fields[i].value)
  {
    if i > 0 {
      GetAt(fields[1..], i - 1);
      assert fields[1..][i - 1] == fields[i];
    }
  }

  lemma {:induction false} KeyCount(fields: seq<Field>)
    requires UniqueKeys(fields)
    ensures |Fields(fields).Keys| == |fields|
  {
    if fields != [] {
      KeyCount(fields[1..]);
      var key := fields[0].key;
      var rest := Fields(fields[1..]);
      FieldsGet(fields[1..], key);
      var j := GetFinds(fields[1..], key);
      assert forall i :: 0 <= i < |fields[1..]| ==> fields[1..][i] == fields[i + 1];
      assert key !in rest;
      assert Fields(fields).Keys == rest.Keys + {key};
    }
  }

  lemma SameSizeSubset<T>(a: set<T>, b: set<T>)
    requires a <= b && |a| == |b|
    ensures a == b
  {
    assert |b - a| == |b| - |a|;
  }

  /** As many keys, all of them owned by the other: the same keys, so the same object if the values agree. */
  lemma SamePointwise(f: seq<Field>, g: seq<Field>)
    requires UniqueKeys(f) && UniqueKeys(g) && |f| == |g|
    requires forall i :: 0 <= i < |g| ==> Has(f, g[i].key) && Meaning(Get(f, g[i].key).value) == Meaning(g[i].value)
    ensures Fields(f) == Fields(g)
  {
    forall k | k in Fields(g)
      ensures k in Fields(f) && Fields(f)[k] == Fields(g)[k]
    {
      FieldsGet(g, k);
      FieldsGet(f, k);
      var j := GetFinds(g, k);
      assert g[j].key == k;
    }
    KeyCount(f);
    KeyCount(g);
    SameSizeSubset(Fields(g).Keys, Fields(f).Keys);
  }

  lemma {:induction false} KeptSoFar(a: Value, b: Value, depth: nat, n: nat, i: nat)
    requires Walks(a, b, depth) && i < n <= Size(b) && AllKept(a, b, depth, n)
    ensures KeepsSlot(a, b, depth, i)
    decreases n
  {
    if i < n - 1 { KeptSoFar(a, b, depth, n - 1, i); }
  }

  lemma {:induction false} KeepsMeaning(a: Value, b: Value, depth: nat)
    requires WellFormed(a) && WellFormed(b) && Keeps(a, b, depth)
    ensures Meaning(a) == Meaning(b)
    decreases b
  {
    if a != b {
      forall i | 0 <= i < Size(b)
        ensures OldSlot(a, b, i).Some? && Meaning(OldSlot(a, b, i).value) == Meaning(Slot(b, i))
      {
        KeptSoFar(a, b, depth, Size(b), i);
        if a.Obj? { var j := GetFinds(a.fields, b.fields[i].key); }
        var was, now := OldSlot(a, b, i).value, Slot(b, i);
        if was != now { KeepsMeaning(was, now, depth + 1); }
      }
      if a.Arr? {
        forall i | 0 <= i < |b.items|
          ensures Items(a.items)[i] == Items(b.items)[i]
        {
          assert OldSlot(a, b, i) == Some(a.items[i]) && Slot(b, i) == b.items[i];
        }
        assert Items(a.items) == Items(b.items);
      } else {
        forall i | 0 <= i < |b.fields|
          ensures Has(a.fields, b.fields[i].key) && Meaning(Get(a.fields, b.fields[i].key).value) == Meaning(b.fields[i].value)
        {
          assert OldSlot(a, b, i).Some?;
        }
        SamePointwise(a.fields, b.fields);
      }
    }
  }

  // --- the copy ------------------------------------------------------------------------

  /** What assigning `values` to the keys of `fields`, in order, leaves in a fresh object. */
  function Assigned(fields: seq<Field>, values: seq<Value>): seq<Field>
    requires |fields| == |values|
  {
    if fields == [] then []
    else
      var last := |fields| - 1;
      var rest := Assigned(fields[..last], values[..last]);
      if fields[last].key == PROTO then rest else rest + [Field(fields[last].key, values[last])]
  }

  lemma {:induction false} GetAppend(fields: seq<Field>, last: Field, key: string)
    requires !Has(fields, last.key)
    ensures Get(fields + [last], key) == if key == last.key then Some(last.value) else Get(fields, key)
  {
    if fields == [] {
    } else {
      assert (fields + [last])[1..] == fields[1..] + [last];
      assert !Has(fields[1..], last.key);
      GetAppend(fields[1..], last, key);
    }
  }

  /** The copy owns every key but "__proto__", with the assigned value. */
  lemma {:induction false} AssignedGet(fields: seq<Field>, values: seq<Value>, key: string)
    requires |fields| == |values| && UniqueKeys(fields)
    ensures key == PROTO || (forall j :: 0 <= j < |fields| ==> fields[j].key != key) ==> !Has(Assigned(fields, values), key)
    ensures forall j :: 0 <= j < |fields| && fields[j].key == key && key != PROTO ==>
              Get(Assigned(fields, values), key) == Some(values[j])
  {
    if fields != [] {
      var last := |fields| - 1;
      AssignedGet(fields[..last], values[..last], key);
      AssignedGet(fields[..last], values[..last], fields[last].key);
      if fields[last].key != PROTO {
        GetAppend(Assigned(fields[..last], values[..last]), Field(fields[last].key, values[last]), key);
      }
    }
  }

  /** What the copy of an object owns under `fields[j]`'s key. */
  lemma CopiedField(fields: seq<Field>, values: seq<Value>, j: int)
    requires |fields| == |values| && UniqueKeys(fields) && 0 <= j < |fields|
    ensures var key := fields[j].key;
            && key in Fields(fields) && Fields(fields)[key] == Meaning(fields[j].value)
            && (key in Fields(Assigned(fields, values)) <==> key != PROTO)
            && (key != PROTO ==> Fields(Assigned(fields, values))[key] == Meaning(values[j]))
  {
    GetAt(fields, j);
    FieldsGet(fields, fields[j].key);
    AssignedGet(fields, values, fields[j].key);
    FieldsGet(Assigned(fields, values), fields[j].key);
  }

  /** A copied object means the same exactly if no key was lost and every value means the same. */
  lemma CopyMeaning(fields: seq<Field>, values: seq<Value>)
    requires |fields| == |values| && UniqueKeys(fields)
    ensures Fields(Assigned(fields, values)) == Fields(fields) <==>
            !Has(fields, PROTO) && forall j :: 0 <= j < |fields| ==> Meaning(values[j]) == Meaning(fields[j].value)
  {
    var copied, original := Fields(Assigned(fields, values)), Fields(fields);
    var p := GetFinds(fields, PROTO);
    if Has(fields, PROTO) {
      CopiedField(fields, values, p);
    } else {
      forall j | 0 <= j < |fields|
        ensures Meaning(values[j]) != Meaning(fields[j].value) ==> copied != original
      {
        CopiedField(fields, values, j);
      }
      if forall j :: 0 <= j < |fields| ==> Meaning(values[j]) == Meaning(fields[j].value) {
        forall k
          ensures k in copied <==> k in original
          ensures k in original ==> copied[k] == original[k]
        {
          FieldsGet(fields, k);
          var j := GetFinds(fields, k);
          if Has(fields, k) {
            CopiedField(fields, values, j);
          } else {
            AssignedGet(fields, values, k);
            FieldsGet(Assigned(fields, values), k);
          }
        }
        assert copied == original;
      }
    }
  }

  lemma CopiedItems(items: seq<Value>, values: seq<Value>)
    requires |items| == |values|
    ensures Items(values) == Items(items) <==> forall j :: 0 <= j < |items| ==> Meaning(values[j]) == Meaning(items[j])
  {
    if Items(values) == Items(items) {
      forall j | 0 <= j < |items| ensures Meaning(values[j]) == Meaning(items[j]) {
        assert Items(values)[j] == Items(items)[j];
      }
    }
  }

  lemma {:induction false} StillAllocated(v: Value, next: int, next': int)
    requires AllocatedBefore(v, next) && next <= next'
    ensures AllocatedBefore(v, next')
  {
    match v
    case Arr(_, items) =>
      forall i | 0 <= i < |items| ensures AllocatedBefore(items[i], next') {
        StillAllocated(items[i], next, next');
      }
    case Obj(_, fields) =>
      forall i | 0 <= i < |fields| ensures AllocatedBefore(fields[i].value, next') {
        StillAllocated(fields[i].value, next, next');
      }
    case _ =>
  }

  // --- the slots filled so far -----------------------------------------------------------

  /** The first `n` values of the copy mean what the new value's slots mean. */
  predicate AllMean(copy: seq<Value>, b: Value, n: nat)
    requires b.IsObject() && n <= |copy| && n <= Size(b)
  {
    n == 0 || (AllMean(copy, b, n - 1) && Meaning(copy[n - 1]) == Meaning(Slot(b, n - 1)))
  }

  /** What slot `n` adds to the slots before it. */
  lemma OneMoreSlot(a: Value, b: Value, depth: nat, n: nat)
    requires Walks(a, b, depth) && n < Size(b)
    ensures AllKept(a, b, depth, n + 1) <==> AllKept(a, b, depth, n) && KeepsSlot(a, b, depth, n)
    ensures NoneFails(a, b, depth, n + 1) <==> NoneFails(a, b, depth, n) && !FailsSlot(a, b, depth, n)
  {
  }

  lemma OneMoreLossless(a: Value, b: Value, depth: nat, n: nat)
    requires Walks(a, b, depth) && n < Size(b)
    ensures AllLossless(a, b, depth, n + 1) <==> AllLossless(a, b, depth, n) && LosslessSlot(a, b, depth, n)
  {
  }

  lemma {:induction false} FailsInAll(a: Value, b: Value, depth: nat, n: nat, i: nat)
    requires Walks(a, b, depth) && i < n <= Size(b) && FailsSlot(a, b, depth, i)
    ensures !NoneFails(a, b, depth, n)
    decreases n
  {
    if i < n - 1 { FailsInAll(a, b, depth, n - 1, i); }
  }

  /** What the copy means, once every slot is filled. */
  lemma CopyMeans(b: Value, id: int, copy: seq<Value>)
    requires WellFormed(b) && b.IsObject() && |copy| == Size(b)
    ensures b.Arr? ==> (Meaning(Arr(id, copy)) == Meaning(b) <==> AllMean(copy, b, Size(b)))
    ensures b.Obj? ==> (Meaning(Obj(id, Assigned(b.fields, copy))) == Meaning(b) <==>
                        !Has(b.fields, PROTO) && AllMean(copy, b, Size(b)))
  {
    MeansSoFar(copy, b, Size(b));
    if b.Arr? {
      CopiedItems(b.items, copy);
    } else {
      CopyMeaning(b.fields, copy);
    }
  }

  lemma {:induction false} MeansSoFar(copy: seq<Value>, b: Value, n: nat)
    requires b.IsObject() && n <= |copy| && n <= Size(b)
    ensures AllMean(copy, b, n) <==> forall i :: 0 <= i < n ==> Meaning(copy[i]) == Meaning(Slot(b, i))
    decreases n
  {
    if n > 0 { MeansSoFar(copy, b, n - 1); }
  }

  lemma {:induction false} MeansWithMore(copy: seq<Value>, more: Value, b: Value, n: nat)
    requires b.IsObject() && n <= |copy| && n <= Size(b)
    ensures AllMean(copy + [more], b, n) <==> AllMean(copy, b, n)
    decreases n
  {
    if n > 0 { MeansWithMore(copy, more, b, n - 1); }
  }

  /** The first `n` values of the copy are shared as they should be. */
  predicate CopyShares(a: Value, b: Value, depth: nat, copy: seq<Value>, n: nat)
    requires Walks(a, b, depth) && n <= |copy| && n <= Size(b)
  {
    n == 0 || (CopyShares(a, b, depth, copy, n - 1) && ShareAt(a, b, depth, n - 1, Some(copy[n - 1])))
  }

  lemma {:induction false} SharesWithMore(a: Value, b: Value, depth: nat, copy: seq<Value>, more: Value, n: nat)
    requires Walks(a, b, depth) && n <= |copy| && n <= Size(b)
    ensures CopyShares(a, b, depth, copy + [more], n) <==> CopyShares(a, b, depth, copy, n)
    decreases n
  {
    if n > 0 { SharesWithMore(a, b, depth, copy, more, n - 1); }
  }

  lemma {:induction false} FilledShares(a: Value, b: Value, depth: nat, copy: seq<Value>, v: Value, n: nat)
    requires Walks(a, b, depth) && WellFormed(b) && |copy| == Size(b) && n <= Size(b)
    requires (b.Arr? && v.Arr? && v.items == copy) || (b.Obj? && v.Obj? && v.fields == Assigned(b.fields, copy))
    requires CopyShares(a, b, depth, copy, n)
    ensures AllShare(a, b, depth, v, n)
    decreases n
  {
    if n > 0 {
      FilledShares(a, b, depth, copy, v, n - 1);
      if b.Obj? { AssignedGet(b.fields, copy, b.fields[n - 1].key); }
      assert Lost(b, n - 1) || OldSlot(v, b, n - 1) == Some(copy[n - 1]);
    }
  }

  lemma {:induction false} AssignedSize(fields: seq<Field>, values: seq<Value>)
    requires |fields| == |values|
    ensures |Assigned(fields, values)| <= |fields|
  {
    if fields != [] {
      var last := |fields| - 1;
      AssignedSize(fields[..last], values[..last]);
    }
  }

  /** The rebuilt value shares what it should, once every slot is filled. */
  lemma RebuiltShares(a: Value, b: Value, depth: nat, copy: seq<Value>, id: int)
    requires Walks(a, b, depth) && WellFormed(b) && |copy| == Size(b) && !Keeps(a, b, depth)
    requires CopyShares(a, b, depth, copy, Size(b))
    ensures b.Arr? ==> Shares(a, b, depth, Arr(id, copy))
    ensures b.Obj? ==> Shares(a, b, depth, Obj(id, Assigned(b.fields, copy)))
  {
    if b.Arr? {
      FilledShares(a, b, depth, copy, Arr(id, copy), Size(b));
    } else {
      AssignedSize(b.fields, copy);
      FilledShares(a, b, depth, copy, Obj(id, Assigned(b.fields, copy)), Size(b));
    }
  }

  /** Whether the first `n` values mean what they should is known, and they are shared as they should be. */
  predicate Filled(a: Value, b: Value, depth: nat, copy: seq<Value>, n: nat)
    requires Walks(a, b, depth) && n <= |copy| && n <= Size(b)
  {
    (AllMean(copy, b, n) <==> AllLossless(a, b, depth, n)) && CopyShares(a, b, depth, copy, n)
  }

  lemma FillOne(a: Value, b: Value, depth: nat, copy: seq<Value>, more: Value, n: nat)
    requires Walks(a, b, depth) && n == |copy| < Size(b) && Filled(a, b, depth, copy, n)
    requires Meaning(more) == Meaning(Slot(b, n)) <==> LosslessSlot(a, b, depth, n)
    requires ShareAt(a, b, depth, n, Some(more))
    ensures Filled(a, b, depth, copy + [more], n + 1)
  {
    MeansWithMore(copy, more, b, n);
    SharesWithMore(a, b, depth, copy, more, n);
    OneMoreLossless(a, b, depth, n);
  }

  // --- the function --------------------------------------------------------------------

  datatype Outcome = Returned(value: Value) | TypeError

  /** One round of the loop: the copy's value for slot `i`, and whether the slot is counted as equal. */
  method ReplaceSlot(a: Value, b: Value, depth: nat, i: nat, next: int) returns (r: Outcome, equal: bool, next': int)
    requires WellFormed(a) && WellFormed(b) && AllocatedBefore(a, next)
    requires Walks(a, b, depth) && i < Size(b)
    ensures next <= next'
    ensures r.TypeError? <==> FailsSlot(a, b, depth, i)
    ensures r.Returned? ==> (equal <==> KeepsSlot(a, b, depth, i))
    ensures r.Returned? ==> (Meaning(r.value) == Meaning(Slot(b, i)) <==> LosslessSlot(a, b, depth, i))
    ensures r.Returned? ==> ShareAt(a, b, depth, i, Some(r.value))
    decreases b, 0
  {
    var was, now := OldSlot(a, b, i), Slot(b, i);
    if was.Some? && was.value == now {
      return Returned(was.value), true, next;
    }
    if was.None? || !was.value.IsObject() || !now.IsObject() {
      return Returned(now), false, next;
    }
    if a.Obj? { ghost var j := GetFinds(a.fields, b.fields[i].key); }
    r, next' := ReplaceEqualDeep(was.value, now, depth + 1, next);
    equal := r.Returned? && r.value == was.value;
  }

  /** Allocates the copy first, fills it in a loop that counts the kept slots, and returns `a` if all were. */
  method ReplaceEqualDeep(a: Value, b: Value, depth: nat, next: int) returns (r: Outcome, next': int)
    requires WellFormed(a) && WellFormed(b) && AllocatedBefore(a, next)
    ensures next <= next'
    ensures r.TypeError? <==> Fails(a, b, depth)
    ensures r.Returned? ==> (r.value == a <==> Keeps(a, b, depth))
    ensures r.Returned? ==> (Meaning(r.value) == Meaning(b) <==> Lossless(a, b, depth))
    ensures r.Returned? ==> Shares(a, b, depth, r.value)
    decreases b, 1
  {
    if a == b { return Returned(a), next; }
    if depth > DEPTH_LIMIT { return Returned(b), next; }
    var arrays := a.Arr? && b.Arr?;
    if !arrays {
      if IsPlain(a).Throws? { return TypeError, next; }
      if IsPlain(a).NotPlain? { return Returned(b), next; }
      if IsPlain(b).Throws? { return TypeError, next; }
      if IsPlain(b).NotPlain? { return Returned(b), next; }
    }
    assert Walks(a, b, depth);
    var copyId := next;
    next' := next + 1;
    var aSize, bSize := Size(a), Size(b);
    var copy: seq<Value> := [];
    var equalItems := 0;
    for i := 0 to bSize
      invariant next < next' && |copy| == i && 0 <= equalItems <= i
      invariant equalItems == i <==> AllKept(a, b, depth, i)
      invariant NoneFails(a, b, depth, i)
      invariant Filled(a, b, depth, copy, i)
    {
      StillAllocated(a, next, next');
      var item, equal, n := ReplaceSlot(a, b, depth, i, next');
      next' := n;
      OneMoreSlot(a, b, depth, i);
      if item.TypeError? {
        FailsInAll(a, b, depth, bSize, i);
        return TypeError, next';
      }
      FillOne(a, b, depth, copy, item.value, i);
      copy := copy + [item.value];
      if equal { equalItems := equalItems + 1; }
    }
    if aSize == bSize && equalItems == aSize {
      KeepsMeaning(a, b, depth);
      r := Returned(a);
    } else {
      CopyMeans(b, copyId, copy);
      RebuiltShares(a, b, depth, copy, copyId);
      r := Returned(if arrays then Arr(copyId, copy) else Obj(copyId, Assigned(b.fields, copy)));
    }
  }

  // --- when the old value is shared ------------------------------------------------------

  /** Every object in `v` passes the test for plain objects. */
  ghost predicate AllPlain(v: Value) {
    match v
    case Arr(_, items) => forall i :: 0 <= i < |items| ==> AllPlain(items[i])
    case Obj(_, fields) => IsPlain(v).Plain? && forall i :: 0 <= i < |fields| ==> AllPlain(fields[i].value)
    case _ => true
  }

  /** No array or object of `v` lies below `levels` others. */
  ghost predicate NestsWithin(v: Value, levels: nat) {
    match v
    case Arr(_, items) => levels > 0 && forall i :: 0 <= i < |items| ==> NestsWithin(items[i], levels - 1)
    case Obj(_, fields) => levels > 0 && forall i :: 0 <= i < |fields| ==> NestsWithin(fields[i].value, levels - 1)
    case _ => true
  }

  /** Plain values, the new one not nested below the depth limit. */
  ghost predicate Comparable(a: Value, b: Value, depth: nat) {
    && WellFormed(a) && WellFormed(b) && AllPlain(a) && AllPlain(b)
    && depth <= DEPTH_LIMIT + 1 && NestsWithin(b, DEPTH_LIMIT + 1 - depth)
  }

  lemma SlotComparable(a: Value, b: Value, depth: nat, i: nat)
    requires Comparable(a, b, depth) && ((a.Arr? && b.Arr?) || (a.Obj? && b.Obj?)) && i < Size(b)
    requires OldSlot(a, b, i).Some?
    ensures Comparable(OldSlot(a, b, i).value, Slot(b, i), depth + 1)
  {
    if a.Obj? { var j := GetFinds(a.fields, b.fields[i].key); }
  }

  lemma SameMeaningSameSize(a: Value, b: Value)
    requires WellFormed(a) && WellFormed(b) && a.IsObject() && b.IsObject() && Meaning(a) == Meaning(b)
    ensures Size(a) == Size(b)
  {
    if a.Arr? {
      assert |Items(a.items)| == |Items(b.items)|;
    } else {
      KeyCount(a.fields);
      KeyCount(b.fields);
    }
  }

  /** Each slot of the new value has an old slot with the same meaning. */
  lemma SlotMeaning(a: Value, b: Value, i: nat)
    requires WellFormed(a) && WellFormed(b) && a.IsObject() && b.IsObject() && Meaning(a) == Meaning(b) && i < Size(b)
    ensures OldSlot(a, b, i).Some? && Meaning(OldSlot(a, b, i).value) == Meaning(Slot(b, i))
  {
    if a.Arr? {
      assert Items(a.items)[i] == Items(b.items)[i];
    } else {
      GetAt(b.fields, i);
      FieldsGet(b.fields, b.fields[i].key);
      FieldsGet(a.fields, b.fields[i].key);
    }
  }

  /** Within the depth limit, plain values are shared exactly if they mean the same. */
  lemma {:induction false} SharedIffSameMeaning(a: Value, b: Value, depth: nat)
    requires Comparable(a, b, depth)
    ensures Keeps(a, b, depth) <==> Meaning(a) == Meaning(b)
    decreases b, 1, 0
  {
    if Keeps(a, b, depth) {
      KeepsMeaning(a, b, depth);
    } else if Meaning(a) == Meaning(b) {
      assert Walks(a, b, depth);
      SameMeaningSameSize(a, b);
      forall i | 0 <= i < Size(b)
        ensures KeepsSlot(a, b, depth, i)
      {
        SlotShared(a, b, depth, i);
      }
      EachKept(a, b, depth, Size(b));
    }
  }

  lemma {:induction false} SlotShared(a: Value, b: Value, depth: nat, i: nat)
    requires Comparable(a, b, depth) && Walks(a, b, depth) && Meaning(a) == Meaning(b) && i < Size(b)
    ensures KeepsSlot(a, b, depth, i)
    decreases b, 0, 0
  {
    SlotMeaning(a, b, i);
    SlotComparable(a, b, depth, i);
    var was, now := OldSlot(a, b, i).value, Slot(b, i);
    SharedIffSameMeaning(was, now, depth + 1);
    SameScalar(was, now);
  }

  lemma SameScalar(a: Value, b: Value)
    requires Meaning(a) == Meaning(b)
    ensures a == b || (a.IsObject() && b.IsObject())
  {
  }

  lemma {:induction false} EachKept(a: Value, b: Value, depth: nat, n: nat)
    requires Walks(a, b, depth) && n <= Size(b) && forall i :: 0 <= i < n ==> KeepsSlot(a, b, depth, i)
    ensures AllKept(a, b, depth, n)
    decreases n
  {
    if n > 0 { EachKept(a, b, depth, n - 1); }
  }

  // --- ordinary values ---------------------------------------------------------------------

  /** No object in `v` owns `key`. */
  ghost predicate Without(v: Value, key: string) {
    match v
    case Arr(_, items) => forall i :: 0 <= i < |items| ==> Without(items[i], key)
    case Obj(_, fields) => !Has(fields, key) && forall i :: 0 <= i < |fields| ==> Without(fields[i].value, key)
    case _ => true
  }

  /** Values that name no key "constructor" or "__proto__" are replaced without error or loss. */
  lemma {:induction false} OrdinaryIsSafe(a: Value, b: Value, depth: nat)
    requires Without(a, "constructor") && Without(b, "constructor") && Without(b, PROTO)
    ensures !Fails(a, b, depth) && Lossless(a, b, depth)
    decreases b, 1, 0
  {
    if Walks(a, b, depth) {
      OrdinarySlots(a, b, depth, Size(b));
    }
  }

  lemma {:induction false} OrdinarySlots(a: Value, b: Value, depth: nat, n: nat)
    requires Without(a, "constructor") && Without(b, "constructor") && Without(b, PROTO)
    requires Walks(a, b, depth) && n <= Size(b)
    ensures NoneFails(a, b, depth, n) && AllLossless(a, b, depth, n)
    decreases b, 0, n
  {
    if n > 0 {
      OrdinarySlots(a, b, depth, n - 1);
      var was, now := OldSlot(a, b, n - 1), Slot(b, n - 1);
      if a.Obj? { var j := GetFinds(a.fields, b.fields[n - 1].key); }
      if was.Some? {
        OrdinaryIsSafe(was.value, now, depth + 1);
      }
    }
  }

  /** Replacing `{}` by `{"__proto__": {}}` loses the key. */
  lemma ProtoIsLost(x: int, y: int, z: int)
    requires x != y
    ensures !Lossless(Obj(x, []), Obj(y, [Field("__proto__", Obj(z, []))]), 0)
  {
    var b := Obj(y, [Field(PROTO, Obj(z, []))]);
    assert |PROTO| == 9 && |"constructor"| == 11;
    assert b.fields[1..] == [] && Get([], "constructor") == None;
    assert Get(b.fields, "constructor") == None;
    assert Walks(Obj(x, []), b, 0);
  }

  /** Replacing `{"constructor": null}` by anything but an array or itself throws. */
  lemma NullConstructorFails(x: int, b: Value)
    requires b != Obj(x, [Field("constructor", Null)])
    ensures Fails(Obj(x, [Field("constructor", Null)]), b, 0)
  {
    var a := Obj(x, [Field("constructor", Null)]);
    assert Get(a.fields, "constructor") == Some(Null);
    assert IsPlain(a).Throws?;
  }
}
