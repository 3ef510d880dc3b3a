/** The `cart_items` table the webhooks read and write through Supabase
    (server/api/webhook.post.ts:166-208, server/api/webhook.ts:168-192,
    server/api/submit-order.post.ts:70), as an object holding the rows. Each
    write is one attempt; the table's `writeError` oracle says which attempts
    fail, and with what message. */
module CartStore {
  import opened Js

  /** The columns a buy postback matches on: user, title, colour and size. */
  datatype Key = Key(userId: string, title: string, color: string, size: string)

  /** One row; a column an insert leaves out is `None`. */
  datatype CartRow = CartRow(
    id: nat,
    key: Key,
    quantity: Option<int>,
    price: string,
    imageUrl: string,
    productCode: Option<string>,
    category: Option<string>,
    productUrl: Option<string>,
    promoEnd: Option<string>)

  /** The columns an update of an existing row writes; `promoEnd` is written
      only when present. */
  datatype Patch = Patch(quantity: int, productUrl: string, promoEnd: Option<string>)

  /** The rows whose key is `k`, in table order. */
  function Matching(rows: seq<CartRow>, k: Key): (r: seq<CartRow>)
    ensures |r| <= |rows|
    ensures forall i :: 0 <= i < |r| ==> r[i].key == k && r[i] in rows
  {
    if rows == [] then []
    else
      var init := Matching(rows[..|rows| - 1], k);
      var last := rows[|rows| - 1];
      if last.key == k then init + [last] else init
  }

  predicate HasKey(rows: seq<CartRow>, k: Key) {
    exists i :: 0 <= i < |rows| && rows[i].key == k
  }

  /** `.maybeSingle()`: the row when exactly one matches. With several
      matches the query reports an error, which the caller ignores, so it
      reads as no row. */
  function Single(rows: seq<CartRow>, k: Key): Option<CartRow> {
    var ms := Matching(rows, k);
    if |ms| == 1 then Some(ms[0]) else None
  }

  /** Some row matches exactly when the match list is non-empty. */
  lemma {:induction false} MatchingNonEmpty(rows: seq<CartRow>, k: Key)
    ensures |Matching(rows, k)| > 0 <==> HasKey(rows, k)
  {
    if rows != [] {
      var init := rows[..|rows| - 1];
      MatchingNonEmpty(init, k);
      if HasKey(rows, k) && rows[|rows| - 1].key != k {
        var i :| 0 <= i < |rows| && rows[i].key == k;
        assert init[i].key == k;
      }
    }
  }

  lemma {:induction false} MatchingAppend(rows: seq<CartRow>, r: CartRow, k: Key)
    ensures Matching(rows + [r], k) == Matching(rows, k) + (if r.key == k then [r] else [])
  {
    assert (rows + [r])[..|rows + [r]| - 1] == rows;
  }

  /** `.limit(1)` returned a row. */
  predicate AnyMatch(rows: seq<CartRow>, k: Key) {
    |Matching(rows, k)| > 0
  }

  /** A row found by `.maybeSingle()` is a row of the table with that key. */
  lemma SingleFound(rows: seq<CartRow>, k: Key)
    requires Single(rows, k).Some?
    ensures Single(rows, k).value in rows && Single(rows, k).value.key == k
    ensures AnyMatch(rows, k)
  {
  }

  /** Two rows with the same key make `.maybeSingle()` read as no row. */
  lemma DuplicateReadsAsNone(rows: seq<CartRow>, a: CartRow, b: CartRow)
    requires a.key == b.key
    ensures Single(rows + [a, b], a.key) == None
  {
    var k := a.key;
    var r1 := rows + [a];
    assert rows + [a, b] == r1 + [b];
    MatchingAppend(rows, a, k);
    MatchingAppend(r1, b, k);
    assert |Matching(r1 + [b], k)| == |Matching(rows, k)| + 2;
  }

  /** The update of the row with id `id`. */
  function Apply(r: CartRow, p: Patch): CartRow {
    r.(quantity := Some(p.quantity), productUrl := Some(p.productUrl),
       promoEnd := if p.promoEnd.Some? then p.promoEnd else r.promoEnd)
  }

  /** `.update(..).eq('id', id)`. */
  function Updated(rows: seq<CartRow>, id: nat, p: Patch): (r: seq<CartRow>)
    ensures |r| == |rows|
  {
    seq(|rows|, i requires 0 <= i < |rows| => if rows[i].id == id then Apply(rows[i], p) else rows[i])
  }

  /** `.delete().eq('user_id', u)`: the rows of other users, in order. */
  function Deleted(rows: seq<CartRow>, u: string): (r: seq<CartRow>)
    ensures forall i :: 0 <= i < |r| ==> r[i].key.userId != u && r[i] in rows
  {
    if rows == [] then []
    else
      var init := Deleted(rows[..|rows| - 1], u);
      var last := rows[|rows| - 1];
      if last.key.userId == u then init else init + [last]
  }

  /** Row ids are assigned in increasing order and stay below the next id. */
  ghost predicate IdsIncreasing(rows: seq<CartRow>, nextId: nat) {
    (forall i, j :: 0 <= i < j < |rows| ==> rows[i].id < rows[j].id)
    && (forall i :: 0 <= i < |rows| ==> rows[i].id < nextId)
  }

  /** An update keeps every row's id and key. */
  lemma UpdatedKeepsKeys(rows: seq<CartRow>, id: nat, p: Patch)
    ensures forall i :: 0 <= i < |rows| ==> Updated(rows, id, p)[i].id == rows[i].id && Updated(rows, id, p)[i].key == rows[i].key
  {
  }

  lemma {:induction false} MatchingUpdated(rows: seq<CartRow>, id: nat, p: Patch, k: Key)
    ensures |Matching(Updated(rows, id, p), k)| == |Matching(rows, k)|
    ensures forall i :: 0 <= i < |Matching(rows, k)| ==>
      Matching(Updated(rows, id, p), k)[i] == (if Matching(rows, k)[i].id == id then Apply(Matching(rows, k)[i], p) else Matching(rows, k)[i])
  {
    if rows != [] {
      var init := rows[..|rows| - 1];
      MatchingUpdated(init, id, p, k);
      assert Updated(rows, id, p) == Updated(init, id, p) + [Updated(rows, id, p)[|rows| - 1]];
      MatchingAppend(Updated(init, id, p), Updated(rows, id, p)[|rows| - 1], k);
      MatchingAppend(init, rows[|rows| - 1], k);
      assert rows == init + [rows[|rows| - 1]];
    }
  }

  /** Updating the one row found for a key keeps it the one row for that key,
      now carrying the patch. */
  lemma UpdateFoundRow(rows: seq<CartRow>, k: Key, p: Patch)
    requires Single(rows, k).Some?
    ensures Single(Updated(rows, Single(rows, k).value.id, p), k) == Some(Apply(Single(rows, k).value, p))
  {
    MatchingUpdated(rows, Single(rows, k).value.id, p, k);
  }

  /** After inserting a row for a key no row had, that row is the one found
      for the key. */
  lemma InsertFound(rows: seq<CartRow>, r: CartRow)
    requires !HasKey(rows, r.key)
    ensures Single(rows + [r], r.key) == Some(r)
  {
    MatchingNonEmpty(rows, r.key);
    MatchingAppend(rows, r, r.key);
  }

  /** After the delete no row of the user is left, and every row of another
      user is kept. */
  lemma {:induction false} DeletedExactly(rows: seq<CartRow>, u: string)
    ensures forall i :: 0 <= i < |rows| && rows[i].key.userId != u ==> rows[i] in Deleted(rows, u)
  {
    if rows != [] {
      var init := rows[..|rows| - 1];
      DeletedExactly(init, u);
      forall i | 0 <= i < |rows| && rows[i].key.userId != u
        ensures rows[i] in Deleted(rows, u)
      {
        if i < |rows| - 1 {
          assert rows[i] == init[i];
        }
      }
    }
  }

  class CartTable {
    var rows: seq<CartRow>
    var nextId: nat
    /** How many writes were attempted so far. */
    var writes: nat
    /** The error of the `n`-th write attempt, if it fails. */
    const writeError: nat -> Option<string>

    ghost predicate Valid()
      reads this
    {
      IdsIncreasing(rows, nextId)
    }

    constructor (writeError: nat -> Option<string>)
      ensures this.writeError == writeError
      ensures rows == [] && nextId == 0 && writes == 0 && Valid()
    {
      this.writeError := writeError;
      rows := [];
      nextId := 0;
      writes := 0;
    }

    /** `.insert(row)`: the row gets the next id, unless the write fails. */
    method Insert(r: CartRow) returns (err: Option<string>)
      requires Valid()
      modifies this
      ensures Valid() && writes == old(writes) + 1
      ensures err == writeError(old(writes))
      ensures err.None? ==> rows == old(rows) + [r.(id := old(nextId))] && nextId == old(nextId) + 1
      ensures err.Some? ==> rows == old(rows) && nextId == old(nextId)
    {
      err := writeError(writes);
      writes := writes + 1;
      if err.None? {
        rows := rows + [r.(id := nextId)];
        nextId := nextId + 1;
      }
    }

    /** `.update(patch).eq('id', id)`. */
    method Update(id: nat, p: Patch) returns (err: Option<string>)
      requires Valid()
      modifies this
      ensures Valid() && writes == old(writes) + 1 && nextId == old(nextId)
      ensures err == writeError(old(writes))
      ensures err.None? ==> rows == Updated(old(rows), id, p)
      ensures err.Some? ==> rows == old(rows)
    {
      err := writeError(writes);
      writes := writes + 1;
      if err.None? {
        rows := Updated(rows, id, p);
      }
    }

    /** `.delete().eq('user_id', u)`. */
    method DeleteUser(u: string) returns (err: Option<string>)
      requires Valid()
      modifies this
      ensures Valid() && writes == old(writes) + 1 && nextId == old(nextId)
      ensures err == writeError(old(writes))
      ensures err.None? ==> rows == Deleted(old(rows), u)
      ensures err.Some? ==> rows == old(rows)
    {
      err := writeError(writes);
      writes := writes + 1;
      if err.None? {
        DeletedIncreasing(rows, nextId, u);
        rows := Deleted(rows, u);
      }
    }
  }

  lemma {:induction false} DeletedIncreasing(rows: seq<CartRow>, nextId: nat, u: string)
    requires IdsIncreasing(rows, nextId)
    ensures IdsIncreasing(Deleted(rows, u), nextId)
    ensures forall i :: 0 <= i < |Deleted(rows, u)| ==> exists j :: 0 <= j < |rows| && rows[j] == Deleted(rows, u)[i]
  {
    if rows != [] {
      var init := rows[..|rows| - 1];
      DeletedIncreasing(init, nextId, u);
      var d := Deleted(init, u);
      var last := rows[|rows| - 1];
      if last.key.userId != u {
        forall i | 0 <= i < |d|
          ensures d[i].id < last.id
        {
          var j :| 0 <= j < |init| && init[j] == d[i];
        }
        assert Deleted(rows, u) == d + [last];
      }
    }
  }
}
