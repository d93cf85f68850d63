/** The array idioms the dashboard's handlers are built from, over immutable
    sequences of records identified by a string key:
    `find` / `some` (Find, HasKey), `filter` (Filter, RemoveKey),
    `map` with a key test (MapWhere) and `reduce` with `+` (Sum). */
module Lists {
  import opened Wrappers

  /** `s.some(x => key(x) === id)` */
  predicate HasKey<T>(s: seq<T>, key: T -> string, id: string) {
    exists i :: 0 <= i < |s| && key(s[i]) == id
  }

  /** At most one element per key. */
  predicate UniqueKeys<T>(s: seq<T>, key: T -> string) {
    forall i, j :: 0 <= i < j < |s| ==> key(s[i]) != key(s[j])
  }

  /** The position of the element `s.find(x => key(x) === id)` returns:
      the first one with that key, or None when there is none. */
  function Find<T>(s: seq<T>, key: T -> string, id: string): (r: Option<nat>)
    ensures r.None? <==> !HasKey(s, key, id)
    ensures r.Some? ==> r.value < |s| && key(s[r.value]) == id
    ensures r.Some? ==> forall j :: 0 <= j < r.value ==> key(s[j]) != id
  {
    if |s| == 0 then None
    else if key(s[0]) == id then Some(0)
    else
      match Find(s[1..], key, id)
      case None =>
        assert forall i :: 1 <= i < |s| ==> s[i] == s[1..][i - 1];
        None
      case Some(i) => Some(i + 1)
  }

  /** In a sequence with unique keys, the element `find` returns is the only
      one with that key. */
  lemma FindUnique<T>(s: seq<T>, key: T -> string, id: string)
    requires UniqueKeys(s, key)
    requires Find(s, key, id).Some?
    ensures forall j :: 0 <= j < |s| && key(s[j]) == id ==> j == Find(s, key, id).value
  {
  }

  /** `s.filter(p)`: the elements satisfying `p`, in their original order. */
  function Filter<T>(s: seq<T>, p: T -> bool): (r: seq<T>)
    ensures |r| <= |s|
    ensures forall i :: 0 <= i < |r| ==> r[i] in s && p(r[i])
    ensures forall i :: 0 <= i < |s| && p(s[i]) ==> s[i] in r
    ensures (forall i :: 0 <= i < |s| ==> p(s[i])) ==> r == s
  {
    if |s| == 0 then []
    else
      assert s == [s[0]] + s[1..];
      (if p(s[0]) then [s[0]] else []) + Filter(s[1..], p)
  }

  /** Filtering distributes over concatenation, so it keeps the relative
      order of the elements it keeps. */
  lemma {:induction false} FilterAppend<T>(s: seq<T>, t: seq<T>, p: T -> bool)
    ensures Filter(s + t, p) == Filter(s, p) + Filter(t, p)
  {
    if |s| == 0 {
      assert s + t == t;
    } else {
      assert (s + t)[1..] == s[1..] + t;
      FilterAppend(s[1..], t, p);
    }
  }

  /** Filtering keeps keys unique. */
  lemma {:induction false} FilterUnique<T>(s: seq<T>, key: T -> string, p: T -> bool)
    requires UniqueKeys(s, key)
    ensures UniqueKeys(Filter(s, p), key)
  {
    if |s| > 0 {
      FilterUnique(s[1..], key, p);
      var rest := Filter(s[1..], p);
      forall j | 0 <= j < |rest|
        ensures key(rest[j]) != key(s[0])
      {
        assert rest[j] in s[1..];
      }
    }
  }

  /** The predicate `x => key(x) !== id`. */
  function KeyIsNot<T>(key: T -> string, id: string): T -> bool {
    (x: T) => key(x) != id
  }

  /** `s.filter(x => key(x) !== id)`: drop every element with key `id`. */
  function RemoveKey<T>(s: seq<T>, key: T -> string, id: string): (r: seq<T>)
    ensures !HasKey(r, key, id)
    ensures forall i :: 0 <= i < |r| ==> r[i] in s
    ensures forall i :: 0 <= i < |s| && key(s[i]) != id ==> s[i] in r
    ensures !HasKey(s, key, id) ==> r == s
    ensures HasKey(s, key, id) ==> |r| < |s|
  {
    var r := Filter(s, KeyIsNot(key, id));
    assert HasKey(s, key, id) ==> |r| < |s| by {
      if HasKey(s, key, id) {
        var i :| 0 <= i < |s| && key(s[i]) == id;
        assert s == s[..i] + [s[i]] + s[i + 1..];
        FilterAppend(s[..i] + [s[i]], s[i + 1..], KeyIsNot(key, id));
        FilterAppend(s[..i], [s[i]], KeyIsNot(key, id));
      }
    }
    r
  }

  /** Filtering out a single rejected element between two runs of kept
      elements leaves the two runs joined. */
  lemma {:induction false} FilterDropOne<T>(before: seq<T>, x: T, after: seq<T>, p: T -> bool)
    requires forall j :: 0 <= j < |before| ==> p(before[j])
    requires !p(x)
    requires forall j :: 0 <= j < |after| ==> p(after[j])
    ensures Filter(before + [x] + after, p) == before + after
  {
    assert Filter([x], p) == [] by {
      assert [x][1..] == [];
    }
    FilterAppend(before + [x], after, p);
    FilterAppend(before, [x], p);
  }

  /** With unique keys, removing a present key deletes exactly that one
      element and keeps the others in their original order. */
  lemma {:induction false} RemoveKeyAt<T>(s: seq<T>, key: T -> string, id: string)
    requires UniqueKeys(s, key)
    requires Find(s, key, id).Some?
    ensures var i := Find(s, key, id).value;
      RemoveKey(s, key, id) == s[..i] + s[i + 1..]
  {
    var i := Find(s, key, id).value;
    var before, after := s[..i], s[i + 1..];
    assert s == before + [s[i]] + after;
    assert forall j :: 0 <= j < |after| ==> key(after[j]) != id by {
      FindUnique(s, key, id);
      assert forall j :: 0 <= j < |after| ==> after[j] == s[i + 1 + j];
    }
    FilterDropOne(before, s[i], after, KeyIsNot(key, id));
  }

  /** Removing a key keeps the remaining keys unique. */
  lemma RemoveKeyUnique<T>(s: seq<T>, key: T -> string, id: string)
    requires UniqueKeys(s, key)
    ensures UniqueKeys(RemoveKey(s, key, id), key)
  {
    FilterUnique(s, key, KeyIsNot(key, id));
  }

  /** `s.map(x => key(x) === id ? g(x) : x)`: rewrite the elements with key
      `id`, leave the rest alone. */
  function MapWhere<T>(s: seq<T>, key: T -> string, id: string, g: T -> T): (r: seq<T>)
    ensures |r| == |s|
    ensures forall i :: 0 <= i < |s| && key(s[i]) != id ==> r[i] == s[i]
    ensures forall i :: 0 <= i < |s| && key(s[i]) == id ==> r[i] == g(s[i])
  {
    seq(|s|, i requires 0 <= i < |s| => if key(s[i]) == id then g(s[i]) else s[i])
  }

  /** With unique keys, rewriting by key replaces the single element `find`
      returns, and nothing else; with the key absent it changes nothing. */
  lemma MapWhereAt<T>(s: seq<T>, key: T -> string, id: string, g: T -> T)
    requires UniqueKeys(s, key)
    ensures Find(s, key, id).None? ==> MapWhere(s, key, id, g) == s
    ensures Find(s, key, id).Some? ==>
      var i := Find(s, key, id).value;
      MapWhere(s, key, id, g) == s[i := g(s[i])]
  {
  }

  /** A rewrite that keeps each element's key keeps the keys unique. */
  lemma MapWhereUnique<T>(s: seq<T>, key: T -> string, id: string, g: T -> T)
    requires UniqueKeys(s, key)
    requires forall i :: 0 <= i < |s| ==> key(g(s[i])) == key(s[i])
    ensures UniqueKeys(MapWhere(s, key, id, g), key)
  {
  }

  /** `s.reduce((acc, x) => acc + f(x), 0)` over integers. */
  function Sum<T>(s: seq<T>, f: T -> int): int {
    if |s| == 0 then 0 else f(s[0]) + Sum(s[1..], f)
  }

  lemma {:induction false} SumAppend<T>(s: seq<T>, t: seq<T>, f: T -> int)
    ensures Sum(s + t, f) == Sum(s, f) + Sum(t, f)
  {
    if |s| == 0 {
      assert s + t == t;
    } else {
      assert (s + t)[1..] == s[1..] + t;
      SumAppend(s[1..], t, f);
    }
  }

  /** Replacing one element changes the sum by exactly the difference. */
  lemma {:induction false} SumUpdate<T>(s: seq<T>, i: nat, x: T, f: T -> int)
    requires i < |s|
    ensures Sum(s[i := x], f) == Sum(s, f) - f(s[i]) + f(x)
  {
    if i > 0 {
      assert s[i := x][1..] == s[1..][i - 1 := x];
      SumUpdate(s[1..], i - 1, x, f);
    }
  }

  /** Deleting one element lowers the sum by exactly that element's value. */
  lemma {:induction false} SumRemoveAt<T>(s: seq<T>, i: nat, f: T -> int)
    requires i < |s|
    ensures Sum(s[..i] + s[i + 1..], f) == Sum(s, f) - f(s[i])
  {
    var before, after := s[..i], s[i + 1..];
    assert s == before + [s[i]] + after;
    SumAppend(before + [s[i]], after, f);
    SumAppend(before, [s[i]], f);
    SumAppend(before, after, f);
    assert Sum([s[i]], f) == f(s[i]) + Sum([s[i]][1..], f);
    assert [s[i]][1..] == [];
  }

  /** Sums of pointwise-equal summands are equal. */
  lemma {:induction false} SumPointwise<T>(s: seq<T>, f: T -> int, g: T -> int)
    requires forall i :: 0 <= i < |s| ==> f(s[i]) == g(s[i])
    ensures Sum(s, f) == Sum(s, g)
  {
    if |s| > 0 {
      SumPointwise(s[1..], f, g);
    }
  }

  /** A sum of zero summands is zero. */
  lemma {:induction false} SumZero<T>(s: seq<T>, f: T -> int)
    requires forall i :: 0 <= i < |s| ==> f(s[i]) == 0
    ensures Sum(s, f) == 0
  {
    if |s| > 0 {
      SumZero(s[1..], f);
    }
  }

  /** With unique keys, a summand that is zero away from key `id` sums to
      its value at the one element with that key, or to zero when there is
      none. */
  lemma {:induction false} SumAtKey<T>(s: seq<T>, key: T -> string, id: string, f: T -> int)
    requires UniqueKeys(s, key)
    requires forall i :: 0 <= i < |s| && key(s[i]) != id ==> f(s[i]) == 0
    ensures Find(s, key, id).None? ==> Sum(s, f) == 0
    ensures Find(s, key, id).Some? ==> Sum(s, f) == f(s[Find(s, key, id).value])
  {
    match Find(s, key, id)
    case None =>
      SumZero(s, f);
    case Some(i) =>
      var before, after := s[..i], s[i + 1..];
      assert s == before + [s[i]] + after;
      FindUnique(s, key, id);
      assert forall j :: 0 <= j < |after| ==> after[j] == s[i + 1 + j];
      SumZero(before, f);
      SumZero(after, f);
      SumAppend(before + [s[i]], after, f);
      SumAppend(before, [s[i]], f);
      assert Sum([s[i]], f) == f(s[i]) + Sum([s[i]][1..], f);
      assert [s[i]][1..] == [];
  }
}
