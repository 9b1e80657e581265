/** Deduplication by a key, for any kind of item: what is missing, what is kept. */
module Dedup {

  function Keys<R, K(==)>(key: R -> K, items: seq<R>): set<K> {
    set i | 0 <= i < |items| :: key(items[i])
  }

  /** The wanted items whose key is not yet taken, each key once, in order. */
  function Missing<R, K(==)>(key: R -> K, seen: set<K>, wanted: seq<R>): seq<R>
    decreases |wanted|
  {
    if wanted == [] then []
    else if key(wanted[0]) in seen then Missing(key, seen, wanted[1..])
    else [wanted[0]] + Missing(key, seen + {key(wanted[0])}, wanted[1..])
  }

  /** The items under another key. */
  function Kept<R, K(==)>(key: R -> K, items: seq<R>, k: K): seq<R> {
    if items == [] then []
    else (if key(items[0]) == k then [] else [items[0]]) + Kept(key, items[1..], k)
  }

  lemma KeysOfOne<R, K>(key: R -> K, item: R)
    ensures Keys(key, [item]) == {key(item)}
  {
    assert [item][0] == item;
  }

  lemma KeysOfConcat<R, K>(key: R -> K, a: seq<R>, b: seq<R>)
    ensures Keys(key, a + b) == Keys(key, a) + Keys(key, b)
  {
    var c := a + b;
    assert forall i :: 0 <= i < |a| ==> c[i] == a[i];
    assert forall i :: 0 <= i < |b| ==> c[|a| + i] == b[i];
  }

  /** The missing items were wanted and their keys are free. */
  ghost predicate Fresh<R(!new), K>(key: R -> K, seen: set<K>, wanted: seq<R>, added: seq<R>) {
    forall r :: r in added ==> r in wanted && key(r) !in seen
  }

  ghost predicate Distinct<R, K>(key: R -> K, items: seq<R>) {
    forall i, j :: 0 <= i < j < |items| ==> key(items[i]) != key(items[j])
  }

  lemma DistinctFront<R(!new), K>(key: R -> K, r: R, tail: seq<R>)
    requires Distinct(key, tail) && forall t :: t in tail ==> key(t) != key(r)
    ensures Distinct(key, [r] + tail)
  {
    var all := [r] + tail;
    forall i, j | 0 <= i < j < |all| ensures key(all[i]) != key(all[j]) {
      assert all[j] == tail[j - 1] && tail[j - 1] in tail;
      assert i > 0 ==> all[i] == tail[i - 1];
    }
  }

  /** Each missing item was wanted, has a key that was free, and no two of them share one. */
  lemma {:induction false} MissingIsNew<R(!new), K>(key: R -> K, seen: set<K>, wanted: seq<R>)
    ensures Fresh(key, seen, wanted, Missing(key, seen, wanted))
    ensures Distinct(key, Missing(key, seen, wanted))
    decreases |wanted|
  {
    if wanted != [] {
      var k, rest := key(wanted[0]), wanted[1..];
      assert forall r :: r in rest ==> r in wanted;
      if k in seen {
        MissingIsNew(key, seen, rest);
      } else {
        MissingIsNew(key, seen + {k}, rest);
        DistinctFront(key, wanted[0], Missing(key, seen + {k}, rest));
      }
    }
  }

  /** Together with the keys that were taken, the missing items carry every wanted key. */
  lemma {:induction false} MissingCovers<R, K>(key: R -> K, seen: set<K>, wanted: seq<R>)
    ensures seen + Keys(key, Missing(key, seen, wanted)) == seen + Keys(key, wanted)
    decreases |wanted|
  {
    if wanted != [] {
      var k, rest := key(wanted[0]), wanted[1..];
      KeysOfConcat(key, [wanted[0]], rest);
      assert wanted == [wanted[0]] + rest;
      KeysOfOne(key, wanted[0]);
      if k in seen {
        MissingCovers(key, seen, rest);
      } else {
        MissingCovers(key, seen + {k}, rest);
        KeysOfConcat(key, [wanted[0]], Missing(key, seen + {k}, rest));
      }
    }
  }

  lemma {:induction false} NothingMissing<R, K>(key: R -> K, seen: set<K>, wanted: seq<R>)
    requires Keys(key, wanted) <= seen
    ensures Missing(key, seen, wanted) == []
    decreases |wanted|
  {
    if wanted != [] {
      assert key(wanted[0]) in Keys(key, wanted);
      KeysOfConcat(key, [wanted[0]], wanted[1..]);
      assert wanted == [wanted[0]] + wanted[1..];
      NothingMissing(key, seen, wanted[1..]);
    }
  }

  /** A run that got through a prefix of the missing items leaves exactly the rest missing. */
  lemma {:induction false} MissingResumes<R, K>(key: R -> K, seen: set<K>, wanted: seq<R>, n: nat)
    requires n <= |Missing(key, seen, wanted)|
    ensures Missing(key, seen + Keys(key, Missing(key, seen, wanted)[..n]), wanted) == Missing(key, seen, wanted)[n..]
    decreases |wanted|
  {
    if wanted != [] {
      var k, rest := key(wanted[0]), wanted[1..];
      var all := Missing(key, seen, wanted);
      if k in seen {
        MissingResumes(key, seen, rest, n);
      } else if n == 0 {
        assert seen + Keys(key, all[..0]) == seen;
      } else {
        var tail := Missing(key, seen + {k}, rest);
        MissingResumes(key, seen + {k}, rest, n - 1);
        assert all[..n] == [wanted[0]] + tail[..n - 1];
        KeysOfConcat(key, [wanted[0]], tail[..n - 1]);
        KeysOfOne(key, wanted[0]);
        assert seen + Keys(key, all[..n]) == seen + {k} + Keys(key, tail[..n - 1]);
      }
    } else {
      assert seen + Keys(key, Missing(key, seen, wanted)[..n]) == seen;
    }
  }

  lemma {:induction false} KeptConcat<R, K>(key: R -> K, a: seq<R>, b: seq<R>, k: K)
    ensures Kept(key, a + b, k) == Kept(key, a, k) + Kept(key, b, k)
  {
    if a == [] {
      assert a + b == b;
    } else {
      assert (a + b)[1..] == a[1..] + b;
      KeptConcat(key, a[1..], b, k);
    }
  }

  /** The kept items are exactly those of other keys; all are kept when the key does not occur. */
  lemma {:induction false} KeptExactly<R(!new), K>(key: R -> K, items: seq<R>, k: K)
    ensures forall r :: r in Kept(key, items, k) <==> r in items && key(r) != k
    ensures |Kept(key, items, k)| <= |items|
    ensures k !in Keys(key, items) <==> |Kept(key, items, k)| == |items|
    ensures k !in Keys(key, items) ==> Kept(key, items, k) == items
  {
    if items != [] {
      var rest := items[1..];
      KeptExactly(key, rest, k);
      assert items == [items[0]] + rest;
      KeysOfConcat(key, [items[0]], rest);
      KeysOfOne(key, items[0]);
    }
  }

  // ----- one step of a loop over the items -----

  lemma KeysOfFront<R, K>(key: R -> K, items: seq<R>, i: nat)
    requires i < |items|
    ensures Keys(key, items[..i + 1]) == Keys(key, items[..i]) + {key(items[i])}
  {
    assert items[..i + 1] == items[..i] + [items[i]];
    KeysOfConcat(key, items[..i], [items[i]]);
    KeysOfOne(key, items[i]);
  }

  lemma MissingStep<R, K>(key: R -> K, seen: set<K>, wanted: seq<R>, i: nat)
    requires i < |wanted|
    ensures Missing(key, seen, wanted[i..]) ==
            if key(wanted[i]) in seen then Missing(key, seen, wanted[i + 1..])
            else [wanted[i]] + Missing(key, seen + {key(wanted[i])}, wanted[i + 1..])
  {
    assert wanted[i..][1..] == wanted[i + 1..];
  }

  lemma KeptStep<R, K>(key: R -> K, items: seq<R>, i: nat, k: K)
    requires i < |items|
    ensures Kept(key, items[i..], k) == (if key(items[i]) == k then [] else [items[i]]) + Kept(key, items[i + 1..], k)
  {
    assert items[i..][1..] == items[i + 1..];
  }

  lemma KeptNothing<R, K>(key: R -> K, k: K)
    ensures Kept(key, [], k) == []
  {
  }

  lemma Regroup<R>(a: seq<R>, b: seq<R>, c: seq<R>)
    ensures a + (b + c) == (a + b) + c
    ensures a + ([] + c) == a + c
  {
  }

  // ----- adding, adding again, taking away -----

  lemma MissingOne<R, K>(key: R -> K, seen: set<K>, item: R)
    ensures Missing(key, seen, [item]) == if key(item) in seen then [] else [item]
  {
    assert [item][1..] == [];
  }

  lemma MissingTwiceIsNothing<R, K>(key: R -> K, existing: seq<R>, wanted: seq<R>)
    ensures var added := Missing(key, Keys(key, existing), wanted);
            Missing(key, Keys(key, existing + added), wanted) == []
  {
    var added := Missing(key, Keys(key, existing), wanted);
    KeysOfConcat(key, existing, added);
    MissingCovers(key, Keys(key, existing), wanted);
    assert Keys(key, wanted) <= Keys(key, existing) + Keys(key, wanted);
    NothingMissing(key, Keys(key, existing + added), wanted);
  }

  lemma KeptWithoutLast<R(!new), K>(key: R -> K, items: seq<R>, last: R)
    requires key(last) !in Keys(key, items)
    ensures Kept(key, items + [last], key(last)) == items
  {
    KeptConcat(key, items, [last], key(last));
    KeptExactly(key, items, key(last));
    assert [last][1..] == [];
  }

  // ----- which item of a key is taken -----

  lemma KeyOfMember<R, K>(key: R -> K, items: seq<R>, r: R)
    requires r in items
    ensures key(r) in Keys(key, items)
  {
    var i :| 0 <= i < |items| && items[i] == r;
  }

  function FirstWith<R, K(==)>(key: R -> K, items: seq<R>, k: K): (r: R)
    requires k in Keys(key, items)
    ensures r in items && key(r) == k
  {
    if key(items[0]) == k then items[0]
    else
      assert items == [items[0]] + items[1..];
      FirstWith(key, items[1..], k)
  }

  /** Of the wanted items of a free key, the first is taken and no other. */
  lemma {:induction false} MissingTakesFirst<R(!new), K>(key: R -> K, seen: set<K>, wanted: seq<R>, k: K)
    requires k in Keys(key, wanted) && k !in seen
    ensures forall r :: key(r) == k ==> (r in Missing(key, seen, wanted) <==> r == FirstWith(key, wanted, k))
    decreases |wanted|
  {
    var k0, rest := key(wanted[0]), wanted[1..];
    assert wanted == [wanted[0]] + rest;
    if k0 in seen {
      MissingTakesFirst(key, seen, rest, k);
    } else if k0 == k {
      MissingIsNew(key, seen + {k0}, rest);
    } else {
      MissingTakesFirst(key, seen + {k0}, rest, k);
    }
  }

  /** a carries the key k once the missing items are added: an existing item does, or else the first
      wanted one. */
  ghost predicate Keeps<R, K>(key: R -> K, existing: seq<R>, wanted: seq<R>, a: R, k: K)
    requires k in Keys(key, wanted)
  {
    if k in Keys(key, existing) then a in existing && key(a) == k else a == FirstWith(key, wanted, k)
  }

  lemma KeepsExactly<R(!new), K>(key: R -> K, existing: seq<R>, wanted: seq<R>, k: K)
    requires k in Keys(key, wanted)
    ensures forall a :: Keeps(key, existing, wanted, a, k)
                        <==> a in existing + Missing(key, Keys(key, existing), wanted) && key(a) == k
    ensures exists a :: Keeps(key, existing, wanted, a, k)
  {
    var added := Missing(key, Keys(key, existing), wanted);
    assert forall a :: a in existing + added <==> a in existing || a in added;
    MissingIsNew(key, Keys(key, existing), wanted);
    if k in Keys(key, existing) {
      var i :| 0 <= i < |existing| && key(existing[i]) == k;
      assert Keeps(key, existing, wanted, existing[i], k);
    } else {
      MissingTakesFirst(key, Keys(key, existing), wanted, k);
      assert Keeps(key, existing, wanted, FirstWith(key, wanted, k), k);
      forall a | a in existing ensures key(a) in Keys(key, existing) {
        var j :| 0 <= j < |existing| && existing[j] == a;
      }
    }
  }
}
