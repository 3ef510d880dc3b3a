/** Grouping by key in first-appearance order, as the scrapers and the cart
    sync do with a JavaScript `Map` (insertion-ordered): the first entry for a
    key creates its group, later ones append to it. */
module Grouping {
  import opened Js

  /** One record to group: its key, the data kept from the first record of the
      key (image, price), and the item appended to the group (a size label). */
  datatype Entry<K, F, S> = Entry(key: K, first: F, item: S)

  datatype Group<K, F, S> = Group(key: K, first: F, items: seq<S>)

  /** The position of the first group with key `k`. */
  function FindKey<K(==), F, S>(gs: seq<Group<K, F, S>>, k: K): (r: Option<nat>)
    ensures r.Some? ==> r.value < |gs| && gs[r.value].key == k
    ensures r.None? ==> forall i :: 0 <= i < |gs| ==> gs[i].key != k
    decreases |gs|
  {
    if gs == [] then None
    else if gs[|gs| - 1].key == k && FindKey(gs[..|gs| - 1], k).None? then Some(|gs| - 1)
    else FindKey(gs[..|gs| - 1], k)
  }

  /** `map.has(k) ? map.get(k).items.push(item) : map.set(k, {first, [item]})`. */
  function Add<K(==), F, S>(gs: seq<Group<K, F, S>>, e: Entry<K, F, S>): seq<Group<K, F, S>> {
    match FindKey(gs, e.key)
    case Some(i) => gs[i := gs[i].(items := gs[i].items + [e.item])]
    case None => gs + [Group(e.key, e.first, [e.item])]
  }

  /** The groups after adding every entry in order. */
  function GroupBy<K(==), F, S>(es: seq<Entry<K, F, S>>): seq<Group<K, F, S>> {
    if es == [] then [] else Add(GroupBy(es[..|es| - 1]), es[|es| - 1])
  }

  // ---------------------------------------------------------------
  // Reference description of the result
  // ---------------------------------------------------------------

  /** The distinct keys, in the order they first appear. */
  function KeysOf<K(==), F, S>(es: seq<Entry<K, F, S>>): seq<K> {
    if es == [] then []
    else
      var ks := KeysOf(es[..|es| - 1]);
      if es[|es| - 1].key in ks then ks else ks + [es[|es| - 1].key]
  }

  /** The items of the entries with key `k`, in order. */
  function ItemsOf<K(==), F, S>(es: seq<Entry<K, F, S>>, k: K): seq<S> {
    if es == [] then []
    else ItemsOf(es[..|es| - 1], k) + (if es[|es| - 1].key == k then [es[|es| - 1].item] else [])
  }

  /** The `first` data of the first entry with key `k`. */
  function FirstOf<K(==), F, S>(es: seq<Entry<K, F, S>>, k: K): F
    requires k in KeysOf(es)
  {
    var init := es[..|es| - 1];
    if k in KeysOf(init) then FirstOf(init, k) else es[|es| - 1].first
  }

  predicate Distinct<K(==)>(ks: seq<K>) {
    forall i, j :: 0 <= i < j < |ks| ==> ks[i] != ks[j]
  }

  /** The key of every entry is listed, and only those. */
  lemma {:induction false} KeysOfMembers<K, F, S>(es: seq<Entry<K, F, S>>, k: K)
    ensures k in KeysOf(es) <==> exists i :: 0 <= i < |es| && es[i].key == k
  {
    if es != [] {
      var init := es[..|es| - 1];
      KeysOfMembers(init, k);
      if exists i :: 0 <= i < |es| && es[i].key == k {
        var i :| 0 <= i < |es| && es[i].key == k;
        if i < |init| { assert init[i].key == k; }
      }
      if exists i :: 0 <= i < |init| && init[i].key == k {
        var i :| 0 <= i < |init| && init[i].key == k;
        assert es[i].key == k;
      }
    }
  }

  lemma {:induction false} KeysOfDistinct<K, F, S>(es: seq<Entry<K, F, S>>)
    ensures Distinct(KeysOf(es))
  {
    if es != [] {
      KeysOfDistinct(es[..|es| - 1]);
    }
  }

  /** A key that never occurs has no items. */
  lemma {:induction false} ItemsOfAbsent<K, F, S>(es: seq<Entry<K, F, S>>, k: K)
    requires k !in KeysOf(es)
    ensures ItemsOf(es, k) == []
  {
    if es != [] {
      ItemsOfAbsent(es[..|es| - 1], k);
    }
  }

  /** The groups correspond one to one to the distinct keys, in order of first
      appearance; each holds the `first` data of its key's first entry and the
      items of all its entries, in order. */
  ghost predicate Describes<K, F, S>(gs: seq<Group<K, F, S>>, es: seq<Entry<K, F, S>>) {
    var ks := KeysOf(es);
    |gs| == |ks| && forall i {:trigger GroupOf(es, ks[i])} :: 0 <= i < |gs| ==> gs[i] == GroupOf(es, ks[i])
  }

  /** The group a key should have: its first entry's data and all its items. */
  ghost function GroupOf<K, F, S>(es: seq<Entry<K, F, S>>, k: K): Group<K, F, S>
    requires k in KeysOf(es)
  {
    Group(k, FirstOf(es, k), ItemsOf(es, k))
  }

  /** The groups' keys are the distinct keys, in order. */
  lemma DescribedKeys<K, F, S>(gs: seq<Group<K, F, S>>, es: seq<Entry<K, F, S>>)
    requires Describes(gs, es)
    ensures forall i :: 0 <= i < |gs| ==> gs[i].key == KeysOf(es)[i]
  {
    forall i | 0 <= i < |gs| ensures gs[i].key == KeysOf(es)[i] {
      assert gs[i] == GroupOf(es, KeysOf(es)[i]);
    }
  }

  /** When the group keys are distinct, the position of a key is its only one. */
  lemma {:induction false} FindDistinct<K, F, S>(gs: seq<Group<K, F, S>>, j: nat)
    requires j < |gs|
    requires forall a, b :: 0 <= a < b < |gs| ==> gs[a].key != gs[b].key
    ensures FindKey(gs, gs[j].key) == Some(j)
  {
    var r := FindKey(gs, gs[j].key);
    assert r.Some?;
  }

  lemma {:induction false} GroupByDescribed<K, F, S>(es: seq<Entry<K, F, S>>)
    ensures Describes(GroupBy(es), es)
  {
    if es != [] {
      var init := es[..|es| - 1];
      var e := es[|es| - 1];
      GroupByDescribed(init);
      KeysOfDistinct(init);
      var gs := GroupBy(init);
      var ks := KeysOf(init);
      DescribedKeys(gs, init);
      if e.key in ks {
        var j :| 0 <= j < |ks| && ks[j] == e.key;
        assert gs[j].key == e.key;
        FindDistinct(gs, j);
        GroupByStepPresent(es, gs, ks, j);
      } else {
        assert FindKey(gs, e.key).None?;
        ItemsOfAbsent(init, e.key);
        GroupByStepAbsent(es, gs, ks);
      }
    }
  }

  lemma {:induction false} GroupByStepPresent<K, F, S>(es: seq<Entry<K, F, S>>, gs: seq<Group<K, F, S>>, ks: seq<K>, j: nat)
    requires es != []
    requires gs == GroupBy(es[..|es| - 1]) && ks == KeysOf(es[..|es| - 1])
    requires Describes(gs, es[..|es| - 1]) && Distinct(ks)
    requires j < |ks| && ks[j] == es[|es| - 1].key && FindKey(gs, ks[j]) == Some(j)
    ensures Describes(GroupBy(es), es)
  {
    var init := es[..|es| - 1];
    var e := es[|es| - 1];
    assert KeysOf(es) == ks;
    var gs' := GroupBy(es);
    assert gs' == gs[j := gs[j].(items := gs[j].items + [e.item])];
    forall i | 0 <= i < |gs'|
      ensures gs'[i] == GroupOf(es, ks[i])
    {
      assert gs[i] == GroupOf(init, ks[i]);
      assert FirstOf(es, ks[i]) == FirstOf(init, ks[i]);
    }
  }

  lemma {:induction false} GroupByStepAbsent<K, F, S>(es: seq<Entry<K, F, S>>, gs: seq<Group<K, F, S>>, ks: seq<K>)
    requires es != []
    requires gs == GroupBy(es[..|es| - 1]) && ks == KeysOf(es[..|es| - 1])
    requires Describes(gs, es[..|es| - 1])
    requires es[|es| - 1].key !in ks && FindKey(gs, es[|es| - 1].key).None?
    requires ItemsOf(es[..|es| - 1], es[|es| - 1].key) == []
    ensures Describes(GroupBy(es), es)
  {
    var e := es[|es| - 1];
    var ks' := KeysOf(es);
    var gs' := GroupBy(es);
    assert gs' == gs + [Group(e.key, e.first, [e.item])];
    forall i | 0 <= i < |gs'|
      ensures gs'[i] == GroupOf(es, ks'[i])
    {
      if i < |gs| {
        assert gs[i] == GroupOf(es[..|es| - 1], ks[i]);
        OldKeyUnchanged(es, ks, i);
      } else {
        assert FirstOf(es, e.key) == e.first;
      }
    }
  }

  /** Adding an entry with a new key leaves the other keys' data alone. */
  lemma OldKeyUnchanged<K, F, S>(es: seq<Entry<K, F, S>>, ks: seq<K>, i: nat)
    requires es != [] && ks == KeysOf(es[..|es| - 1])
    requires es[|es| - 1].key !in ks && i < |ks|
    ensures KeysOf(es)[i] == ks[i]
    ensures ItemsOf(es, ks[i]) == ItemsOf(es[..|es| - 1], ks[i])
    ensures FirstOf(es, ks[i]) == FirstOf(es[..|es| - 1], ks[i])
  {
  }

  // ---------------------------------------------------------------
  // The Map itself: groups in insertion order plus a key index
  // ---------------------------------------------------------------

  /** `index` finds each group by key, as `Map.get` does. */
  predicate Indexed<K(==), F, S>(gs: seq<Group<K, F, S>>, index: map<K, nat>) {
    (forall a, b :: 0 <= a < b < |gs| ==> gs[a].key != gs[b].key)
    && (forall k :: k in index ==> index[k] < |gs| && gs[index[k]].key == k)
    && (forall i :: 0 <= i < |gs| ==> gs[i].key in index)
  }

  /** One iteration of a grouping loop: look the key up, then append to its
      group or open a new one at the end. */
  method AddEntry<K(==), F, S>(gs: seq<Group<K, F, S>>, index: map<K, nat>, e: Entry<K, F, S>)
    returns (gs': seq<Group<K, F, S>>, index': map<K, nat>)
    requires Indexed(gs, index)
    ensures gs' == Add(gs, e)
    ensures Indexed(gs', index')
  {
    if e.key in index {
      var i := index[e.key];
      FindDistinct(gs, i);
      gs' := gs[i := gs[i].(items := gs[i].items + [e.item])];
      index' := index;
    } else {
      gs' := gs + [Group(e.key, e.first, [e.item])];
      index' := index[e.key := |gs|];
    }
  }

  // ---------------------------------------------------------------
  // Loops that skip some records
  // ---------------------------------------------------------------

  /** The entries that are present, in order. */
  function Present<K, F, S>(os: seq<Option<Entry<K, F, S>>>): seq<Entry<K, F, S>> {
    if os == [] then []
    else Present(os[..|os| - 1]) + (if os[|os| - 1].Some? then [os[|os| - 1].value] else [])
  }

  lemma {:induction false} PresentEmpty<K, F, S>(os: seq<Option<Entry<K, F, S>>>)
    ensures Present(os) == [] <==> forall i :: 0 <= i < |os| ==> os[i].None?
  {
    if os != [] {
      var init := os[..|os| - 1];
      PresentEmpty(init);
      assert forall i :: 0 <= i < |init| ==> init[i] == os[i];
    }
  }

  /** Every entry kept comes from a present record. */
  lemma {:induction false} PresentFrom<K, F, S>(os: seq<Option<Entry<K, F, S>>>, i: nat)
    requires i < |Present(os)|
    ensures exists j :: 0 <= j < |os| && os[j] == Some(Present(os)[i])
  {
    var init := os[..|os| - 1];
    if i < |Present(init)| {
      PresentFrom(init, i);
      var j :| 0 <= j < |init| && init[j] == Some(Present(init)[i]);
      assert os[j] == init[j];
    } else {
      assert os[|os| - 1] == Some(Present(os)[i]);
    }
  }

  lemma GroupByAppend<K, F, S>(es: seq<Entry<K, F, S>>, e: Entry<K, F, S>)
    ensures GroupBy(es + [e]) == Add(GroupBy(es), e)
  {
    assert (es + [e])[..|es|] == es;
  }

  lemma PresentStep<K, F, S>(os: seq<Option<Entry<K, F, S>>>, i: nat)
    requires i < |os|
    ensures os[i].Some? ==> Present(os[..i + 1]) == Present(os[..i]) + [os[i].value]
    ensures os[i].None? ==> Present(os[..i + 1]) == Present(os[..i])
  {
    assert os[..i + 1][..i] == os[..i];
  }

  /** A loop over records that groups those yielding an entry and skips the
      others. */
  method GroupPresent<K(==), F, S>(os: seq<Option<Entry<K, F, S>>>) returns (gs: seq<Group<K, F, S>>)
    ensures gs == GroupBy(Present(os))
  {
    gs := [];
    var index: map<K, nat> := map[];
    var i := 0;
    while i < |os|
      invariant 0 <= i <= |os|
      invariant gs == GroupBy(Present(os[..i]))
      invariant Indexed(gs, index)
    {
      PresentStep(os, i);
      if os[i].Some? {
        GroupByAppend(Present(os[..i]), os[i].value);
        gs, index := AddEntry(gs, index, os[i].value);
      }
      i := i + 1;
    }
    assert os[..i] == os;
  }
}
