/** The Google catalog of the donations fragment: item names associated with
    their values by index, kept the way Kotlin's `associateBy` keeps them, in
    an insertion-ordered LinkedHashMap. */
module Catalog {
  import opened Common

  /** One entry of the map: an item name (the key) and its value. */
  datatype Entry = Entry(name: string, value: string)

  /** An insertion-ordered map, as a sequence of entries. */
  type Catalog = seq<Entry>

  /** The map's keys, in insertion order. */
  function Keys(c: Catalog): (r: seq<string>)
    ensures |r| == |c|
  {
    seq(|c|, i requires 0 <= i < |c| => c[i].name)
  }

  /** The map's `values` collection, in the order of their keys. */
  function Values(c: Catalog): (r: seq<string>)
    ensures |r| == |c|
  {
    seq(|c|, i requires 0 <= i < |c| => c[i].value)
  }

  /** No key occurs twice, which a map guarantees. */
  predicate DistinctKeys(c: Catalog) {
    forall i, j :: 0 <= i < j < |c| ==> c[i].name != c[j].name
  }

  /** The first position of `x` in `s`. */
  function IndexOf(s: seq<string>, x: string): (r: Option<nat>)
    ensures r.Some? ==> r.value < |s| && s[r.value] == x && forall j :: 0 <= j < r.value ==> s[j] != x
    ensures r.None? <==> x !in s
  {
    if s == [] then None
    else if s[0] == x then Some(0)
    else match IndexOf(s[1..], x)
      case None => None
      case Some(j) => Some(j + 1)
  }

  /** The value stored under `k`, or None when `k` is no key. */
  function Lookup(c: Catalog, k: string): (r: Option<string>)
    ensures r.None? <==> k !in Keys(c)
  {
    match IndexOf(Keys(c), k)
    case None => None
    case Some(i) => Some(c[i].value)
  }

  /** In a map every entry is found by its own key. */
  lemma LookupAt(c: Catalog, i: nat)
    requires DistinctKeys(c) && i < |c|
    ensures Lookup(c, c[i].name) == Some(c[i].value)
  {
    assert Keys(c)[i] == c[i].name;
  }

  /** LinkedHashMap.put: a new key goes to the end; an existing key keeps its
      position and gets the new value. */
  function Put(c: Catalog, k: string, v: string): (r: Catalog)
    requires DistinctKeys(c)
  {
    match IndexOf(Keys(c), k)
    case None => c + [Entry(k, v)]
    case Some(i) => c[i := Entry(k, v)]
  }

  /** Putting keeps the keys distinct, stores the new value under its key,
      leaves every other key's value alone, and appends only a new key. */
  lemma PutSpec(c: Catalog, k: string, v: string)
    requires DistinctKeys(c)
    ensures DistinctKeys(Put(c, k, v))
    ensures k in Keys(c) ==> Keys(Put(c, k, v)) == Keys(c)
    ensures k !in Keys(c) ==> Put(c, k, v) == c + [Entry(k, v)]
    ensures Lookup(Put(c, k, v), k) == Some(v)
    ensures forall k' :: k' != k ==> Lookup(Put(c, k, v), k') == Lookup(c, k')
  {
    var r := Put(c, k, v);
    match IndexOf(Keys(c), k)
    case None =>
      forall i | 0 <= i < |c|
        ensures c[i].name != k
      {
        assert Keys(c)[i] == c[i].name;
      }
      assert Keys(r) == Keys(c) + [k];
      LookupAt(r, |c|);
    case Some(i) =>
      assert Keys(r) == Keys(c);
      LookupAt(r, i);
  }

  /** The map built from the first `n` names, each sent to the value at its
      own index; a name seen again replaces its earlier value in place. */
  function AssociatePrefix(names: seq<string>, values: seq<string>, n: nat): (r: Catalog)
    requires n <= |names| && n <= |values|
    ensures DistinctKeys(r)
  {
    if n == 0 then []
    else
      var c := AssociatePrefix(names, values, n - 1);
      PutSpec(c, names[n - 1], values[n - 1]);
      Put(c, names[n - 1], values[n - 1])
  }

  /** `names.withIndex().associateBy({it.value}, {values[it.index]})`: when a
      name has no value at its index the array access throws, reported as
      Failure carrying the index out of bounds, which is the first one past
      the values. */
  function Associate(names: seq<string>, values: seq<string>): (r: Result<Catalog, nat>)
    ensures r.Failure? <==> |names| > |values|
    ensures r.Failure? ==> r.error == |values|
  {
    if |names| > |values| then Failure(|values|)
    else Success(AssociatePrefix(names, values, |names|))
  }

  /** The keys of the association are exactly the names. */
  lemma {:induction false} AssociatePrefixKeys(names: seq<string>, values: seq<string>, n: nat)
    requires n <= |names| && n <= |values|
    ensures forall k :: k in Keys(AssociatePrefix(names, values, n)) <==> k in names[..n]
  {
    if n > 0 {
      AssociatePrefixKeys(names, values, n - 1);
      var c := AssociatePrefix(names, values, n - 1);
      PutSpec(c, names[n - 1], values[n - 1]);
      if names[n - 1] !in Keys(c) {
        assert Keys(c + [Entry(names[n - 1], values[n - 1])]) == Keys(c) + [names[n - 1]];
      }
      assert names[..n] == names[..n - 1] + [names[n - 1]];
    }
  }

  /** Every name is sent to the value at the index of its LAST occurrence:
      later duplicates overwrite earlier ones. */
  lemma {:induction false} AssociatePrefixLastWins(names: seq<string>, values: seq<string>, n: nat, i: nat)
    requires n <= |names| && n <= |values| && i < n
    requires forall j :: i < j < n ==> names[j] != names[i]
    ensures Lookup(AssociatePrefix(names, values, n), names[i]) == Some(values[i])
  {
    PutSpec(AssociatePrefix(names, values, n - 1), names[n - 1], values[n - 1]);
    if i < n - 1 {
      AssociatePrefixLastWins(names, values, n - 1, i);
    }
  }

  /** The catalog property of the fragment: a successful association sends
      each name to the value at the index of its last occurrence, and its
      keys are exactly the names, each once. */
  lemma AssociateLookup(names: seq<string>, values: seq<string>)
    requires |names| <= |values|
    ensures Associate(names, values).Success?
    ensures DistinctKeys(Associate(names, values).value)
    ensures forall k :: k in Keys(Associate(names, values).value) <==> k in names
    ensures forall i :: 0 <= i < |names| && (forall j :: i < j < |names| ==> names[j] != names[i]) ==>
      Lookup(Associate(names, values).value, names[i]) == Some(values[i])
  {
    AssociatePrefixKeys(names, values, |names|);
    assert names[..|names|] == names;
    forall i | 0 <= i < |names| && (forall j :: i < j < |names| ==> names[j] != names[i])
      ensures Lookup(Associate(names, values).value, names[i]) == Some(values[i])
    {
      AssociatePrefixLastWins(names, values, |names|, i);
    }
  }

  predicate Distinct(s: seq<string>) {
    forall i, j :: 0 <= i < j < |s| ==> s[i] != s[j]
  }

  lemma DistinctLastFresh(names: seq<string>, n: nat)
    requires 0 < n <= |names| && Distinct(names)
    ensures names[n - 1] !in names[..n - 1]
  {
  }

  /** The first `n` names paired with the first `n` values, by position. */
  function Pairs(names: seq<string>, values: seq<string>, n: nat): (r: Catalog)
    requires n <= |names| && n <= |values|
    ensures |r| == n
  {
    seq(n, i requires 0 <= i < n => Entry(names[i], values[i]))
  }

  lemma PairsFacts(names: seq<string>, values: seq<string>, n: nat)
    requires 0 < n <= |names| && n <= |values|
    ensures Keys(Pairs(names, values, n - 1)) == names[..n - 1]
    ensures Pairs(names, values, n) == Pairs(names, values, n - 1) + [Entry(names[n - 1], values[n - 1])]
  {
  }

  /** With distinct names nothing is overwritten: the map is the positional
      pairing of names and values, in the order of the names. */
  lemma {:induction false} AssociatePrefixPositional(names: seq<string>, values: seq<string>, n: nat)
    requires n <= |names| && n <= |values| && Distinct(names)
    ensures AssociatePrefix(names, values, n) == Pairs(names, values, n)
  {
    if n > 0 {
      AssociatePrefixPositional(names, values, n - 1);
      PairsFacts(names, values, n);
      DistinctLastFresh(names, n);
      PutSpec(AssociatePrefix(names, values, n - 1), names[n - 1], values[n - 1]);
    }
  }

  lemma AssociatePositional(names: seq<string>, values: seq<string>)
    requires |names| <= |values| && Distinct(names)
    ensures Associate(names, values).Success?
    ensures Keys(Associate(names, values).value) == names
    ensures Values(Associate(names, values).value) == values[..|names|]
  {
    AssociatePrefixPositional(names, values, |names|);
    assert Keys(Pairs(names, values, |names|)) == names;
    assert Values(Pairs(names, values, |names|)) == values[..|names|];
  }
}
