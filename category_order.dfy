/**
 * Association lists keyed by category, and the order in which such a list holds
 * its keys. A JavaScript object whose keys are non-numeric strings enumerates
 * them in insertion order; a `reduce` that inserts a key the first time it meets
 * it therefore yields its keys in order of first occurrence (Distinct).
 */
module CategoryOrder {
  import opened Wrappers
  import opened Catalog

  /** The keys of an association list, in list order. */
  function Keys<V>(acc: seq<(Category, V)>): (r: seq<Category>)
    ensures |r| == |acc|
    ensures forall i :: 0 <= i < |acc| ==> r[i] == acc[i].0
  {
    if acc == [] then [] else [acc[0].0] + Keys(acc[1..])
  }

  /** The value stored under `c`, if `c` is a key; the first such entry wins. */
  function Lookup<V>(acc: seq<(Category, V)>, c: Category): Option<V>
  {
    if acc == [] then None
    else if acc[0].0 == c then Some(acc[0].1)
    else Lookup(acc[1..], c)
  }

  /** A category is found iff it is a key. */
  lemma {:induction false} LookupFound<V>(acc: seq<(Category, V)>, c: Category)
    ensures Lookup(acc, c).Some? <==> c in Keys(acc)
  {
    if acc != [] {
      LookupFound(acc[1..], c);
    }
  }

  /** The categories of `cs` without repetition, in order of first occurrence. */
  function Distinct(cs: seq<Category>): (r: seq<Category>)
    ensures forall c :: c in r <==> c in cs
    ensures forall i, j :: 0 <= i < j < |r| ==> r[i] != r[j]
  {
    if cs == [] then []
    else
      var d := Distinct(cs[..|cs| - 1]);
      assert cs == cs[..|cs| - 1] + [cs[|cs| - 1]];
      if cs[|cs| - 1] in d then d else d + [cs[|cs| - 1]]
  }

  /** The position of the first occurrence of `c` in `cs`. */
  function FirstIndex(cs: seq<Category>, c: Category): (r: nat)
    requires c in cs
    ensures r < |cs| && cs[r] == c
    ensures forall j :: 0 <= j < r ==> cs[j] != c
  {
    if cs[0] == c then 0 else 1 + FirstIndex(cs[1..], c)
  }

  /** Distinct lists the categories in the order in which they first occur. */
  lemma {:induction false} DistinctOrder(cs: seq<Category>, i: nat, j: nat)
    requires i < j < |Distinct(cs)|
    ensures FirstIndex(cs, Distinct(cs)[i]) < FirstIndex(cs, Distinct(cs)[j])
  {
    var p := cs[..|cs| - 1];
    var x := cs[|cs| - 1];
    assert cs == p + [x];
    var d := Distinct(p);
    assert Distinct(cs) == if x in d then d else d + [x];
    if j < |d| {
      DistinctOrder(p, i, j);
      FirstIndexOfPrefix(p, x, d[i]);
      FirstIndexOfPrefix(p, x, d[j]);
    } else {
      FirstIndexOfPrefix(p, x, d[i]);
      assert Distinct(cs)[j] == x && x !in p;
      assert FirstIndex(cs, x) == |p|;
    }
  }

  /** Appending an element does not move the first occurrence of an earlier one. */
  lemma FirstIndexOfPrefix(p: seq<Category>, x: Category, c: Category)
    requires c in p
    ensures c in p + [x] && FirstIndex(p + [x], c) == FirstIndex(p, c) < |p|
  {
    var k := FirstIndex(p, c);
    var k' := FirstIndex(p + [x], c);
    assert (p + [x])[k] == c;
    assert k' <= k;
    assert p[k'] == (p + [x])[k'];
  }
  /** With unique keys, looking up the key of entry i finds entry i. */
  lemma {:induction false} LookupUnique<V>(acc: seq<(Category, V)>, i: nat)
    requires i < |acc|
    requires forall a, b :: 0 <= a < b < |Keys(acc)| ==> Keys(acc)[a] != Keys(acc)[b]
    ensures Lookup(acc, acc[i].0) == Some(acc[i].1)
  {
    if i > 0 {
      assert Keys(acc)[0] != Keys(acc)[i];
      LookupUnique(acc[1..], i - 1);
    }
  }
}
