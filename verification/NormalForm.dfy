/**
 `canonical_json` is a normal form: two values get the same text exactly when they are the same up to
 the order of dictionary entries, at every depth (and up to tuple against list, integral decimal
 against int, which `_canonicalize` merges on purpose).
 */
module NormalForm {
  import opened Basics
  import opened StringOrder
  import opened JsonValues
  import opened JsonReader

  /** Python dictionaries never hold a name twice. */
  ghost predicate WellFormed(v: PyValue) {
    match v
    case PyList(items) => forall i | 0 <= i < |items| :: WellFormed(items[i])
    case PyTuple(items) => forall i | 0 <= i < |items| :: WellFormed(items[i])
    case PyDict(entries) =>
      && (forall i, j | 0 <= i < j < |entries| :: entries[i].0 != entries[j].0)
      && (forall i | 0 <= i < |entries| :: WellFormed(entries[i].1))
    case _ => true
  }

  /** The values `_canonicalize` accepts: finite numbers, strings, and containers of such values. */
  ghost predicate Supported(v: PyValue) {
    match v
    case PyList(items) => forall i | 0 <= i < |items| :: Supported(items[i])
    case PyTuple(items) => forall i | 0 <= i < |items| :: Supported(items[i])
    case PyDict(entries) => forall i | 0 <= i < |entries| :: Supported(entries[i].1)
    case PyFloatNotFinite => false
    case PyDecimal(d) => !d.NotFinite?
    case PyOther => false
    case _ => true
  }

  predicate IsSequence(v: PyValue) {
    v.PyList? || v.PyTuple?
  }

  /** The number a decimal stands for; every other scalar stands for itself. */
  function Scalar(v: PyValue): PyValue {
    match v
    case PyDecimal(Integral(n)) => PyInt(n)
    case PyDecimal(Fractional(r)) => PyFloat(r)
    case _ => v
  }

  /** The same value up to the order of dictionary entries, at every depth. */
  ghost predicate Equivalent(a: PyValue, b: PyValue)
    decreases a
  {
    if IsSequence(a) then
      IsSequence(b) && |a.items| == |b.items| && forall i | 0 <= i < |a.items| :: Equivalent(a.items[i], b.items[i])
    else if a.PyDict? then
      && b.PyDict?
      && Names(a.entries) == Names(b.entries)
      && forall i, j | 0 <= i < |a.entries| && 0 <= j < |b.entries| && a.entries[i].0 == b.entries[j].0 ::
           Equivalent(a.entries[i].1, b.entries[j].1)
    else
      !IsSequence(b) && !b.PyDict? && Scalar(a) == Scalar(b)
  }

  lemma LookupAt(entries: seq<(string, PyValue)>, i: nat)
    requires i < |entries| && forall p, q | 0 <= p < q < |entries| :: entries[p].0 != entries[q].0
    ensures Lookup(entries, entries[i].0) == entries[i].1
  {
    var j :| 0 <= j < |entries| && entries[j] == (entries[i].0, Lookup(entries, entries[i].0));
  }

  /** The values accepted are exactly the supported ones; everything else raises. */
  lemma {:induction false} AcceptsExactlySupported(v: PyValue)
    requires WellFormed(v)
    ensures Canonicalize(v).Ok? <==> Supported(v)
    decreases v
  {
    match v
    case PyList(items) =>
      forall i | 0 <= i < |items| { AcceptsExactlySupported(items[i]); }
    case PyTuple(items) =>
      forall i | 0 <= i < |items| { AcceptsExactlySupported(items[i]); }
    case PyDict(entries) =>
      forall i | 0 <= i < |entries|
        ensures Canonicalize(entries[i].1).Ok? <==> Supported(entries[i].1)
      {
        AcceptsExactlySupported(entries[i].1);
      }
      DictAccepted(v);
    case _ =>
  }

  lemma DictAccepted(v: PyValue)
    requires v.PyDict? && WellFormed(v)
    ensures Canonicalize(v).Ok? <==> forall i | 0 <= i < |v.entries| :: Canonicalize(v.entries[i].1).Ok?
  {
    var names := SortedNames(Names(v.entries));
    assert Canonicalize(v).Ok? <==> CanonicalFields(v, names).Ok?;
    forall i | 0 <= i < |v.entries|
      ensures v.entries[i].0 in names && Lookup(v.entries, v.entries[i].0) == v.entries[i].1
    {
      LookupAt(v.entries, i);
    }
    forall k | k in names
      ensures exists i | 0 <= i < |v.entries| :: v.entries[i] == (k, Lookup(v.entries, k))
    {
    }
  }

  /** What the canonical form of a dictionary holds. */
  lemma CanonicalDict(v: PyValue)
    requires v.PyDict? && WellFormed(v) && Canonicalize(v).Ok?
    ensures Canonicalize(v).value.Dict?
    ensures Canonicalize(v).value.fields.Keys == Names(v.entries)
    ensures forall i | 0 <= i < |v.entries| ::
              Canonicalize(v.entries[i].1) == Ok(Canonicalize(v).value.fields[v.entries[i].0])
  {
    var names := SortedNames(Names(v.entries));
    var fields := CanonicalFields(v, names).value;
    assert fields.Keys == Names(v.entries);
    forall i | 0 <= i < |v.entries|
      ensures Canonicalize(v.entries[i].1) == Ok(fields[v.entries[i].0])
    {
      LookupAt(v.entries, i);
      assert v.entries[i].0 in names;
    }
  }

  /** Canonical forms agree exactly on equivalent values. */
  lemma {:induction false} CanonicalIffEquivalent(a: PyValue, b: PyValue)
    requires WellFormed(a) && WellFormed(b)
    requires Canonicalize(a).Ok? && Canonicalize(b).Ok?
    ensures Canonicalize(a) == Canonicalize(b) <==> Equivalent(a, b)
    decreases a
  {
    if IsSequence(a) {
      if IsSequence(b) { SequencesAgree(a, b); }
    } else if a.PyDict? {
      if b.PyDict? { DictsAgree(a, b); } else { CanonicalDict(a); }
    }
  }

  lemma {:induction false} SequencesAgree(a: PyValue, b: PyValue)
    requires IsSequence(a) && IsSequence(b)
    requires WellFormed(a) && WellFormed(b)
    requires Canonicalize(a).Ok? && Canonicalize(b).Ok?
    ensures Canonicalize(a) == Canonicalize(b) <==> Equivalent(a, b)
    decreases a, 0
  {
    var xs, ys := CanonicalItems(a.items).value, CanonicalItems(b.items).value;
    assert Canonicalize(a) == Ok(List(xs)) && Canonicalize(b) == Ok(List(ys));
    if |xs| == |ys| {
      forall i | 0 <= i < |xs|
        ensures xs[i] == ys[i] <==> Equivalent(a.items[i], b.items[i])
      {
        assert a.items[i] < a;
        CanonicalIffEquivalent(a.items[i], b.items[i]);
      }
      assert xs == ys <==> forall i | 0 <= i < |xs| :: xs[i] == ys[i];
    }
  }

  lemma {:induction false} DictsAgree(a: PyValue, b: PyValue)
    requires a.PyDict? && b.PyDict?
    requires WellFormed(a) && WellFormed(b)
    requires Canonicalize(a).Ok? && Canonicalize(b).Ok?
    ensures Canonicalize(a) == Canonicalize(b) <==> Equivalent(a, b)
    decreases a, 0
  {
    hide Canonicalize, CanonicalFields, Lookup;
    CanonicalDict(a);
    CanonicalDict(b);
    var xs, ys := Canonicalize(a).value.fields, Canonicalize(b).value.fields;
    forall i, j | 0 <= i < |a.entries| && 0 <= j < |b.entries| && a.entries[i].0 == b.entries[j].0
      ensures xs[a.entries[i].0] == ys[b.entries[j].0] <==> Equivalent(a.entries[i].1, b.entries[j].1)
    {
      assert a.entries[i].1 < a;
      CanonicalIffEquivalent(a.entries[i].1, b.entries[j].1);
    }
    if Equivalent(a, b) {
      forall k | k in xs
        ensures xs[k] == ys[k]
      {
        var i :| 0 <= i < |a.entries| && a.entries[i].0 == k;
        var j :| 0 <= j < |b.entries| && b.entries[j].0 == k;
      }
      assert xs == ys;
    }
  }

  /** Same text if and only if equivalent. */
  lemma TextIffEquivalent(a: PyValue, b: PyValue)
    requires WellFormed(a) && WellFormed(b) && Supported(a) && Supported(b)
    ensures CanonicalJson(a).Ok? && CanonicalJson(b).Ok?
    ensures CanonicalJson(a) == CanonicalJson(b) <==> Equivalent(a, b)
  {
    AcceptsExactlySupported(a);
    AcceptsExactlySupported(b);
    CanonicalIffEquivalent(a, b);
    if CanonicalJson(a) == CanonicalJson(b) {
      TextIsInjective(Canonicalize(a).value, Canonicalize(b).value);
    }
  }

  lemma {:induction false} EquivalentReflexive(v: PyValue)
    requires WellFormed(v)
    ensures Equivalent(v, v)
    decreases v
  {
    if IsSequence(v) {
      forall i | 0 <= i < |v.items|
        ensures Equivalent(v.items[i], v.items[i])
      {
        assert v.items[i] < v;
        EquivalentReflexive(v.items[i]);
      }
    } else if v.PyDict? {
      forall i | 0 <= i < |v.entries|
        ensures Equivalent(v.entries[i].1, v.entries[i].1)
      {
        assert v.entries[i].1 < v;
        EquivalentReflexive(v.entries[i].1);
      }
    }
  }

  lemma SameEntriesEquivalent(a: PyValue, b: PyValue)
    requires a.PyDict? && b.PyDict? && WellFormed(a) && WellFormed(b)
    requires forall e :: e in a.entries <==> e in b.entries
    ensures Equivalent(a, b)
  {
    forall k
      ensures k in Names(a.entries) <==> k in Names(b.entries)
    {
      if i :| 0 <= i < |a.entries| && a.entries[i].0 == k {
        assert a.entries[i] in b.entries;
      }
      if i :| 0 <= i < |b.entries| && b.entries[i].0 == k {
        assert b.entries[i] in a.entries;
      }
    }
    forall i, j | 0 <= i < |a.entries| && 0 <= j < |b.entries| && a.entries[i].0 == b.entries[j].0
      ensures Equivalent(a.entries[i].1, b.entries[j].1)
    {
      assert b.entries[j] in a.entries;
      var k :| 0 <= k < |a.entries| && a.entries[k] == b.entries[j];
      assert k == i;
      EquivalentReflexive(a.entries[i].1);
    }
  }

  /** A dictionary filled in another order has the same text. */
  lemma InsertionOrderIsIrrelevant(a: PyValue, b: PyValue)
    requires a.PyDict? && b.PyDict? && WellFormed(a) && WellFormed(b) && Supported(a)
    requires forall e :: e in a.entries <==> e in b.entries
    ensures CanonicalJson(a).Ok? && CanonicalJson(a) == CanonicalJson(b)
  {
    forall i | 0 <= i < |b.entries|
      ensures Supported(b.entries[i].1)
    {
      assert b.entries[i] in a.entries;
    }
    SameEntriesEquivalent(a, b);
    TextIffEquivalent(a, b);
  }

  /** `v` is the JSON value `j` written as a Python value, with its entries in some order. */
  ghost predicate Presents(v: PyValue, j: Json)
    decreases v
  {
    match v
    case PyNone => j == Null
    case PyBool(b) => j == Bool(b)
    case PyInt(n) => j == Int(n)
    case PyFloat(r) => j == Float(r)
    case PyStr(s) => j == Str(s)
    case PyList(items) => j.List? && |j.items| == |items| && forall i | 0 <= i < |items| ::
        Presents(items[i], j.items[i])
    case PyDict(entries) =>
      && j.Dict?
      && j.fields.Keys == Names(entries)
      && forall i | 0 <= i < |entries| :: Presents(entries[i].1, j.fields[entries[i].0])
    case _ => false
  }

  /** Canonicalising what is already canonical changes nothing, whatever order its entries are in. */
  lemma {:induction false} CanonicalizeIsIdempotent(v: PyValue, j: Json)
    requires WellFormed(v) && Presents(v, j)
    ensures Canonicalize(v) == Ok(j)
    decreases v
  {
    match v
    case PyList(items) =>
      forall i | 0 <= i < |items|
        ensures Canonicalize(items[i]) == Ok(j.items[i])
      {
        CanonicalizeIsIdempotent(items[i], j.items[i]);
      }
      assert CanonicalItems(items).value == j.items;
    case PyDict(entries) =>
      forall i | 0 <= i < |entries|
        ensures Canonicalize(entries[i].1) == Ok(j.fields[entries[i].0])
      {
        CanonicalizeIsIdempotent(entries[i].1, j.fields[entries[i].0]);
      }
      DictAccepted(v);
      DictHolds(v, j.fields);
    case _ =>
  }

  lemma DictHolds(v: PyValue, fields: map<string, Json>)
    requires v.PyDict? && WellFormed(v) && Canonicalize(v).Ok? && fields.Keys == Names(v.entries)
    requires forall i | 0 <= i < |v.entries| :: Canonicalize(v.entries[i].1) == Ok(fields[v.entries[i].0])
    ensures Canonicalize(v) == Ok(Dict(fields))
  {
    hide Canonicalize, CanonicalFields, Lookup;
    CanonicalDict(v);
    var found := Canonicalize(v).value.fields;
    forall k | k in found
      ensures found[k] == fields[k]
    {
      var i :| 0 <= i < |v.entries| && v.entries[i].0 == k;
    }
    assert found == fields;
  }

  ghost predicate Injective<A(!new), B>(f: A -> B) {
    forall x, y :: f(x) == f(y) ==> x == y
  }

  /** `hash_json` on values already in JSON form. */
  ghost function JsonHash(digest: string -> string): Json -> string {
    j => "sha256:" + digest(Text(j))
  }

  /** `hash_json` of a value is the hash of its canonical form. */
  lemma HashIsOfCanonicalForm(digest: string -> string, v: PyValue, j: Json)
    requires Canonicalize(v) == Ok(j)
    ensures HashJson(digest, v) == Ok(JsonHash(digest)(j))
  {
  }

  /** If the digest has no collisions, `hash_json` has none, up to the order of dictionary entries. */
  lemma HashIffEquivalent(digest: string -> string, a: PyValue, b: PyValue)
    requires Injective(digest)
    requires WellFormed(a) && WellFormed(b) && Supported(a) && Supported(b)
    ensures HashJson(digest, a).Ok? && HashJson(digest, b).Ok?
    ensures HashJson(digest, a) == HashJson(digest, b) <==> Equivalent(a, b)
  {
    TextIffEquivalent(a, b);
    var x, y := CanonicalJson(a).value, CanonicalJson(b).value;
    DigestTextInjective(digest, x, y);
  }

  lemma DigestTextInjective(digest: string -> string, x: string, y: string)
    requires Injective(digest)
    ensures "sha256:" + digest(x) == "sha256:" + digest(y) ==> x == y
  {
    assert ("sha256:" + digest(x))[7..] == digest(x);
    assert ("sha256:" + digest(y))[7..] == digest(y);
  }

  lemma JsonHashIsInjective(digest: string -> string)
    requires Injective(digest)
    ensures Injective(JsonHash(digest))
  {
    forall a, b | JsonHash(digest)(a) == JsonHash(digest)(b)
      ensures a == b
    {
      DigestTextInjective(digest, Text(a), Text(b));
      TextIsInjective(a, b);
    }
  }
}
