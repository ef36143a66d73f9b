/**
 * Python dictionaries with string values, as the program uses them for records and for the
 * webhook configuration: an association list in insertion order, where assigning an existing
 * key keeps its position and assigning a new key appends it. The key type is a parameter.
 */
module Dicts {
  import opened Wrappers

  type Entry<K> = (K, string)
  type Dict<K> = seq<Entry<K>>

  /** `list(d.keys())`, in insertion order. */
  function Keys<K(==,!new)>(d: Dict<K>): (ks: seq<K>)
    ensures |ks| == |d|
  {
    if d == [] then [] else [d[0].0] + Keys(d[1..])
  }

  /** The `i`-th key is the key of the `i`-th entry. */
  lemma {:induction false} KeysAt<K(!new)>(d: Dict<K>, i: nat)
    requires i < |d|
    ensures Keys(d)[i] == d[i].0
  {
    if i > 0 {
      KeysAt(d[1..], i - 1);
    }
  }

  /** No key occurs twice in `ks`. */
  predicate Distinct<K(==,!new)>(ks: seq<K>)
  {
    forall i, j :: 0 <= i < j < |ks| ==> ks[i] != ks[j]
  }

  /** A real dict never holds a key twice. */
  predicate UniqueKeys<K(==,!new)>(d: Dict<K>)
  {
    Distinct(Keys(d))
  }

  /** `d.get(k)`. */
  function Get<K(==,!new)>(d: Dict<K>, k: K): (r: Option<string>)
    ensures r.None? <==> k !in Keys(d)
  {
    if d == [] then None
    else if d[0].0 == k then Some(d[0].1)
    else Get(d[1..], k)
  }

  /** Keys are unique when no two entries share a key. */
  lemma EntryKeysDistinct<K(!new)>(d: Dict<K>)
    requires forall i, j :: 0 <= i < j < |d| ==> d[i].0 != d[j].0
    ensures UniqueKeys(d)
  {
    forall i, j | 0 <= i < j < |d| ensures Keys(d)[i] != Keys(d)[j] {
      KeysAt(d, i);
      KeysAt(d, j);
    }
  }

  /** In a dict with unique keys, each entry's key looks up that entry's value. */
  lemma {:induction false} GetAt<K(!new)>(d: Dict<K>, i: nat)
    requires UniqueKeys(d) && i < |d|
    ensures Get(d, d[i].0) == Some(d[i].1)
  {
    if i > 0 {
      KeysAt(d, 0);
      KeysAt(d, i);
      assert Keys(d)[1..] == Keys(d[1..]);
      assert UniqueKeys(d[1..]) by {
        forall p, q | 0 <= p < q < |Keys(d[1..])| ensures Keys(d[1..])[p] != Keys(d[1..])[q] {
          assert Keys(d[1..])[p] == Keys(d)[p + 1] && Keys(d[1..])[q] == Keys(d)[q + 1];
        }
      }
      GetAt(d[1..], i - 1);
    }
  }

  /** `d.get(k, default)`. */
  function GetOr<K(==,!new)>(d: Dict<K>, k: K, default: string): string
  {
    Get(d, k).GetOr(default)
  }

  /** `d[k] = v` on a copy of `d`. */
  function Set<K(==,!new)>(d: Dict<K>, k: K, v: string): (r: Dict<K>)
    ensures Get(r, k) == Some(v)
    ensures forall k' :: k' != k ==> Get(r, k') == Get(d, k')
  {
    if d == [] then [(k, v)]
    else if d[0].0 == k then [(k, v)] + d[1..]
    else
      var r := [d[0]] + Set(d[1..], k, v);
      assert r[1..] == Set(d[1..], k, v);
      r
  }

  /** Assigning an existing key keeps every key where it was; a new key goes last. */
  lemma {:induction false} SetKeys<K(!new)>(d: Dict<K>, k: K, v: string)
    ensures Keys(Set(d, k, v)) == if k in Keys(d) then Keys(d) else Keys(d) + [k]
  {
    if d == [] {
    } else if d[0].0 == k {
      assert Keys(Set(d, k, v)) == [k] + Keys(d[1..]) == Keys(d);
    } else {
      var t := Set(d[1..], k, v);
      assert Set(d, k, v) == [d[0]] + t;
      assert ([d[0]] + t)[1..] == t;
      assert Keys(Set(d, k, v)) == [d[0].0] + Keys(t);
      assert Keys(d) == [d[0].0] + Keys(d[1..]);
      assert k in Keys(d) <==> k in Keys(d[1..]);
      SetKeys(d[1..], k, v);
      if k !in Keys(d) {
        assert [d[0].0] + (Keys(d[1..]) + [k]) == Keys(d) + [k];
      }
    }
  }

  /** Assigning a key keeps the keys of a dict distinct. */
  lemma SetKeepsKeysUnique<K(!new)>(d: Dict<K>, k: K, v: string)
    requires UniqueKeys(d)
    ensures UniqueKeys(Set(d, k, v))
  {
    SetKeys(d, k, v);
  }

  /**
   * `r` extends `d`: a real dict stays real, the keys of `d` come first and in place, and
   * every other key of `r` is among `added`.
   */
  predicate Extends<K(==,!new)>(d: Dict<K>, r: Dict<K>, added: seq<K>)
  {
    && (UniqueKeys(d) ==> UniqueKeys(r))
    && |d| <= |r| && Keys(r)[..|d|] == Keys(d)
    && forall k :: k in Keys(r) ==> k in Keys(d) || k in added
  }

  /** A single assignment extends the dict by at most its key. */
  lemma SetExtends<K(!new)>(d: Dict<K>, k: K, v: string)
    ensures Extends(d, Set(d, k, v), [k])
  {
    SetKeys(d, k, v);
  }

  /** Extending twice extends by both sets of keys. */
  lemma ExtendsTrans<K(!new)>(d: Dict<K>, e: Dict<K>, r: Dict<K>, a: seq<K>, b: seq<K>)
    requires Extends(d, e, a) && Extends(e, r, b)
    ensures Extends(d, r, a + b)
  {
    assert Keys(r)[..|d|] == Keys(r)[..|e|][..|d|];
  }

  /** Assigning a key the value it already has changes nothing. */
  lemma {:induction false} SetUnchanged<K(!new)>(d: Dict<K>, k: K, v: string)
    requires UniqueKeys(d) && Get(d, k) == Some(v)
    ensures Set(d, k, v) == d
  {
    if d[0].0 != k {
      assert Keys(d) == [d[0].0] + Keys(d[1..]);
      assert forall i :: 0 <= i < |d| - 1 ==> Keys(d[1..])[i] == Keys(d)[i + 1];
      SetUnchanged(d[1..], k, v);
    }
  }

  /** The successive assignments `d[k0] = v0; d[k1] = v1; ...` of `pairs`, in order. */
  function SetAll<K(==,!new)>(d: Dict<K>, pairs: seq<Entry<K>>): Dict<K>
    decreases pairs
  {
    if pairs == [] then d else SetAll(Set(d, pairs[0].0, pairs[0].1), pairs[1..])
  }

  /** Two runs of assignments in a row are one run. */
  lemma {:induction false} SetAllAppend<K(!new)>(d: Dict<K>, a: seq<Entry<K>>, b: seq<Entry<K>>)
    ensures SetAll(d, a + b) == SetAll(SetAll(d, a), b)
    decreases a
  {
    if a == [] {
      assert a + b == b;
    } else {
      assert (a + b)[0] == a[0] && (a + b)[1..] == a[1..] + b;
      SetAllAppend(Set(d, a[0].0, a[0].1), a[1..], b);
    }
  }

  /** Five assignments in a row. */
  lemma SetAllFive<K(!new)>(d: Dict<K>, a0: Entry<K>, a1: Entry<K>, a2: Entry<K>, a3: Entry<K>, a4: Entry<K>)
    ensures SetAll(d, [a0, a1, a2, a3, a4]) == Set(Set(Set(Set(Set(d, a0.0, a0.1), a1.0, a1.1), a2.0, a2.1), a3.0, a3.1), a4.0, a4.1)
  {
    var d0 := d;
    var d1 := Set(d0, a0.0, a0.1);
    var d2 := Set(d1, a1.0, a1.1);
    var d3 := Set(d2, a2.0, a2.1);
    var d4 := Set(d3, a3.0, a3.1);
    var d5 := Set(d4, a4.0, a4.1);
    assert [a0, a1, a2, a3, a4][0] == a0 && [a0, a1, a2, a3, a4][1..] == [a1, a2, a3, a4];
    assert SetAll(d0, [a0, a1, a2, a3, a4]) == SetAll(d1, [a1, a2, a3, a4]);
    assert [a1, a2, a3, a4][0] == a1 && [a1, a2, a3, a4][1..] == [a2, a3, a4];
    assert SetAll(d1, [a1, a2, a3, a4]) == SetAll(d2, [a2, a3, a4]);
    assert [a2, a3, a4][0] == a2 && [a2, a3, a4][1..] == [a3, a4];
    assert SetAll(d2, [a2, a3, a4]) == SetAll(d3, [a3, a4]);
    assert [a3, a4][0] == a3 && [a3, a4][1..] == [a4];
    assert SetAll(d3, [a3, a4]) == SetAll(d4, [a4]);
    assert [a4][0] == a4 && [a4][1..] == [];
    assert SetAll(d4, [a4]) == SetAll(d5, []);
  }

  /** Six assignments in a row. */
  lemma SetAllSix<K(!new)>(d: Dict<K>, a0: Entry<K>, a1: Entry<K>, a2: Entry<K>, a3: Entry<K>, a4: Entry<K>, a5: Entry<K>)
    ensures SetAll(d, [a0, a1, a2, a3, a4, a5]) == Set(Set(Set(Set(Set(Set(d, a0.0, a0.1), a1.0, a1.1), a2.0, a2.1), a3.0, a3.1), a4.0, a4.1), a5.0, a5.1)
  {
    var d0 := d;
    var d1 := Set(d0, a0.0, a0.1);
    var d2 := Set(d1, a1.0, a1.1);
    var d3 := Set(d2, a2.0, a2.1);
    var d4 := Set(d3, a3.0, a3.1);
    var d5 := Set(d4, a4.0, a4.1);
    var d6 := Set(d5, a5.0, a5.1);
    assert [a0, a1, a2, a3, a4, a5][0] == a0 && [a0, a1, a2, a3, a4, a5][1..] == [a1, a2, a3, a4, a5];
    assert SetAll(d0, [a0, a1, a2, a3, a4, a5]) == SetAll(d1, [a1, a2, a3, a4, a5]);
    assert [a1, a2, a3, a4, a5][0] == a1 && [a1, a2, a3, a4, a5][1..] == [a2, a3, a4, a5];
    assert SetAll(d1, [a1, a2, a3, a4, a5]) == SetAll(d2, [a2, a3, a4, a5]);
    assert [a2, a3, a4, a5][0] == a2 && [a2, a3, a4, a5][1..] == [a3, a4, a5];
    assert SetAll(d2, [a2, a3, a4, a5]) == SetAll(d3, [a3, a4, a5]);
    assert [a3, a4, a5][0] == a3 && [a3, a4, a5][1..] == [a4, a5];
    assert SetAll(d3, [a3, a4, a5]) == SetAll(d4, [a4, a5]);
    assert [a4, a5][0] == a4 && [a4, a5][1..] == [a5];
    assert SetAll(d4, [a4, a5]) == SetAll(d5, [a5]);
    assert [a5][0] == a5 && [a5][1..] == [];
    assert SetAll(d5, [a5]) == SetAll(d6, []);
  }

  /** The keys of `pairs` without their first, and the first key of `pairs` is not among them. */
  lemma KeysTail<K(!new)>(pairs: seq<Entry<K>>)
    requires pairs != []
    ensures Keys(pairs) == [pairs[0].0] + Keys(pairs[1..])
    ensures forall k :: k in Keys(pairs[1..]) ==> k in Keys(pairs)
    ensures UniqueKeys(pairs) ==> UniqueKeys(pairs[1..]) && pairs[0].0 !in Keys(pairs[1..])
  {
    assert forall i :: 0 <= i < |pairs| - 1 ==> Keys(pairs[1..])[i] == Keys(pairs)[i + 1];
  }

  /** Keys that `pairs` does not assign keep their lookups. */
  lemma {:induction false} SetAllOthers<K(!new)>(d: Dict<K>, pairs: seq<Entry<K>>, k: K)
    requires k !in Keys(pairs)
    ensures Get(SetAll(d, pairs), k) == Get(d, k)
    decreases pairs
  {
    if pairs != [] {
      KeysTail(pairs);
      SetAllOthers(Set(d, pairs[0].0, pairs[0].1), pairs[1..], k);
    }
  }

  /** With distinct keys in `pairs`, every key of `pairs` ends up bound to its value. */
  lemma {:induction false} SetAllAssigns<K(!new)>(d: Dict<K>, pairs: seq<Entry<K>>, i: nat)
    requires UniqueKeys(pairs) && i < |pairs|
    ensures Get(SetAll(d, pairs), pairs[i].0) == Some(pairs[i].1)
    decreases pairs
  {
    KeysTail(pairs);
    var d' := Set(d, pairs[0].0, pairs[0].1);
    if i == 0 {
      SetAllOthers(d', pairs[1..], pairs[0].0);
    } else {
      assert pairs[1..][i - 1] == pairs[i];
      SetAllAssigns(d', pairs[1..], i - 1);
    }
  }

  /** The keys `d` had stay first, in their order. */
  lemma {:induction false} SetAllKeepsKeys<K(!new)>(d: Dict<K>, pairs: seq<Entry<K>>)
    ensures |d| <= |SetAll(d, pairs)| && Keys(SetAll(d, pairs))[..|d|] == Keys(d)
    decreases pairs
  {
    if pairs != [] {
      var d' := Set(d, pairs[0].0, pairs[0].1);
      SetKeys(d, pairs[0].0, pairs[0].1);
      assert |d| <= |d'| && Keys(d')[..|d|] == Keys(d);
      SetAllKeepsKeys(d', pairs[1..]);
      assert SetAll(d, pairs) == SetAll(d', pairs[1..]);
      var ks := Keys(SetAll(d', pairs[1..]));
      assert ks[..|d|] == ks[..|d'|][..|d|];
    }
  }

  /** Every key that `d` did not have comes from `pairs`. */
  lemma {:induction false} SetAllNewKeys<K(!new)>(d: Dict<K>, pairs: seq<Entry<K>>, k: K)
    requires k in Keys(SetAll(d, pairs))
    ensures k in Keys(d) || k in Keys(pairs)
    decreases pairs
  {
    if pairs != [] {
      var d' := Set(d, pairs[0].0, pairs[0].1);
      KeysTail(pairs);
      SetKeys(d, pairs[0].0, pairs[0].1);
      SetAllNewKeys(d', pairs[1..], k);
    }
  }

  /** Assignments keep the keys of a dict distinct. */
  lemma {:induction false} SetAllKeepsKeysUnique<K(!new)>(d: Dict<K>, pairs: seq<Entry<K>>)
    requires UniqueKeys(d)
    ensures UniqueKeys(SetAll(d, pairs))
    decreases pairs
  {
    if pairs != [] {
      SetKeepsKeysUnique(d, pairs[0].0, pairs[0].1);
      SetAllKeepsKeysUnique(Set(d, pairs[0].0, pairs[0].1), pairs[1..]);
    }
  }

  /** Repeating assignments whose values are already in place changes nothing. */
  lemma {:induction false} SetAllUnchanged<K(!new)>(d: Dict<K>, pairs: seq<Entry<K>>)
    requires UniqueKeys(d)
    requires forall i :: 0 <= i < |pairs| ==> Get(d, pairs[i].0) == Some(pairs[i].1)
    ensures SetAll(d, pairs) == d
    decreases pairs
  {
    if pairs != [] {
      SetUnchanged(d, pairs[0].0, pairs[0].1);
      assert forall i :: 0 <= i < |pairs| - 1 ==> pairs[1..][i] == pairs[i + 1];
      SetAllUnchanged(d, pairs[1..]);
    }
  }

  /** Applying the same assignments twice stores the same dict as applying them once. */
  lemma SetAllIdempotent<K(!new)>(d: Dict<K>, pairs: seq<Entry<K>>)
    requires UniqueKeys(d) && UniqueKeys(pairs)
    ensures SetAll(SetAll(d, pairs), pairs) == SetAll(d, pairs)
  {
    SetAllKeepsKeysUnique(d, pairs);
    forall i | 0 <= i < |pairs| ensures Get(SetAll(d, pairs), pairs[i].0) == Some(pairs[i].1) {
      SetAllAssigns(d, pairs, i);
    }
    SetAllUnchanged(SetAll(d, pairs), pairs);
  }

  /** Python's `a == b` on dicts: the same keys bound to the same values, in any order. */
  predicate SameDict<K(==,!new)>(a: Dict<K>, b: Dict<K>)
  {
    && (forall k :: k in Keys(a) ==> Get(b, k) == Get(a, k))
    && (forall k :: k in Keys(b) ==> Get(a, k) == Get(b, k))
  }

  /** Every dict equals itself. */
  lemma SameDictReflexive<K(!new)>(a: Dict<K>)
    ensures SameDict(a, a)
  {
  }

  /** `SameDict` is exactly "every lookup agrees". */
  lemma SameDictIffSameLookups<K(!new)>(a: Dict<K>, b: Dict<K>)
    ensures SameDict(a, b) ==> forall k :: Get(a, k) == Get(b, k)
    ensures (forall k :: Get(a, k) == Get(b, k)) ==> SameDict(a, b)
  {
    if SameDict(a, b) {
      forall k ensures Get(a, k) == Get(b, k) {
        if k !in Keys(a) && k !in Keys(b) {
          assert Get(a, k).None? && Get(b, k).None?;
        }
      }
    }
  }
}
