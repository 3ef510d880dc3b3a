/** Filling a JavaScript `Map` with `set` in a loop: a later `set` of the same
    key replaces the earlier value. */
module MapBuild {

  /** The map after `set(k, v)` for each pair in order. */
  function Assoc<K, V>(ps: seq<(K, V)>): map<K, V> {
    if ps == [] then map[]
    else Assoc(ps[..|ps| - 1])[ps[|ps| - 1].0 := ps[|ps| - 1].1]
  }

  function Flatten<T>(rows: seq<seq<T>>): seq<T> {
    if rows == [] then [] else Flatten(rows[..|rows| - 1]) + rows[|rows| - 1]
  }

  /** The keys are those of the pairs. */
  lemma {:induction false} AssocKeys<K, V>(ps: seq<(K, V)>, k: K)
    ensures k in Assoc(ps) <==> exists i :: 0 <= i < |ps| && ps[i].0 == k
  {
    if ps != [] {
      var init := ps[..|ps| - 1];
      AssocKeys(init, k);
      if exists i :: 0 <= i < |ps| && ps[i].0 == k {
        var i :| 0 <= i < |ps| && ps[i].0 == k;
        if i < |init| {
          assert init[i] == ps[i];
        }
      }
      if exists i :: 0 <= i < |init| && init[i].0 == k {
        var i :| 0 <= i < |init| && init[i].0 == k;
        assert ps[i] == init[i];
      }
    }
  }

  /** A key set again later takes the later value. */
  lemma {:induction false} AssocLater<K, V>(a: seq<(K, V)>, b: seq<(K, V)>, k: K)
    requires k in Assoc(b)
    ensures k in Assoc(a + b) && Assoc(a + b)[k] == Assoc(b)[k]
  {
    if b != [] {
      var init := b[..|b| - 1];
      assert (a + b)[..|a + b| - 1] == a + init;
      if k != b[|b| - 1].0 {
        AssocLater(a, init, k);
      }
    }
  }

  /** A key never set later keeps its earlier value, if any. */
  lemma {:induction false} AssocEarlier<K, V>(a: seq<(K, V)>, b: seq<(K, V)>, k: K)
    requires k !in Assoc(b)
    ensures k in Assoc(a + b) <==> k in Assoc(a)
    ensures k in Assoc(a) ==> Assoc(a + b)[k] == Assoc(a)[k]
  {
    if b == [] {
      assert a + b == a;
    } else {
      var init := b[..|b| - 1];
      assert (a + b)[..|a + b| - 1] == a + init;
      AssocEarlier(a, init, k);
    }
  }

  /** Pairs that all carry the same value map every key to it. */
  lemma {:induction false} AssocConst<K, V>(ps: seq<(K, V)>, v: V, k: K)
    requires forall i :: 0 <= i < |ps| ==> ps[i].1 == v
    requires k in Assoc(ps)
    ensures Assoc(ps)[k] == v
  {
    var init := ps[..|ps| - 1];
    if k != ps[|ps| - 1].0 {
      AssocConst(init, v, k);
    }
  }

  lemma FlattenTwo<T>(x: seq<T>, y: seq<T>)
    ensures Flatten([x, y]) == x + y
  {
    assert [x, y][..1] == [x];
    FlattenOne(x);
  }

  lemma FlattenOne<T>(x: seq<T>)
    ensures Flatten([x]) == x
  {
    assert [x][..0] == [];
  }

  /** Nested loops `for (row of rows) for (p of row) map.set(p.0, p.1)`. */
  method AssocRows<K, V>(rows: seq<seq<(K, V)>>) returns (m: map<K, V>)
    ensures m == Assoc(Flatten(rows))
  {
    m := map[];
    var i := 0;
    while i < |rows|
      invariant 0 <= i <= |rows|
      invariant m == Assoc(Flatten(rows[..i]))
    {
      assert rows[..i + 1][..i] == rows[..i];
      ghost var before := Flatten(rows[..i]);
      assert before + rows[i][..0] == before;
      var j := 0;
      while j < |rows[i]|
        invariant 0 <= j <= |rows[i]|
        invariant m == Assoc(before + rows[i][..j])
      {
        assert (before + rows[i][..j + 1])[..|before| + j] == before + rows[i][..j];
        m := m[rows[i][j].0 := rows[i][j].1];
        j := j + 1;
      }
      assert rows[i][..j] == rows[i];
      assert Flatten(rows[..i + 1]) == before + rows[i];
      i := i + 1;
    }
    assert rows[..i] == rows;
  }
}
