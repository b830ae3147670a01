/** Shared vocabulary of the model: optional values, results, record ids,
    and lookups in the tables of the document store, which are kept in
    insertion ("natural") order. */
module Common {

  datatype Option<+T> = None | Some(value: T)

  datatype Result<+T, +E> = Success(value: T) | Failure(error: E)

  /** A document id (an ObjectId in the store), compared as its string form. */
  type Id = string

  /** An account as the handlers see it through `req.user`. */
  datatype User = User(id: Id, role: string)

  /** `req.user` as a handler reads it: undefined when no authentication
      ran, null when `protect` found no account with the token's id, or
      the account. */
  datatype Requester = NoUser | NullUser | Known(user: User)

  /** No two rows of a table share an id. */
  ghost predicate DistinctIds<T>(rows: seq<T>, key: T -> Id) {
    forall i, j :: 0 <= i < j < |rows| ==> key(rows[i]) != key(rows[j])
  }

  /** The position of the first row with the given id (`findById`). */
  function IndexOfId<T>(rows: seq<T>, key: T -> Id, id: Id): (r: Option<nat>)
    ensures r.Some? ==> r.value < |rows| && key(rows[r.value]) == id
    ensures r.Some? ==> forall k :: 0 <= k < r.value ==> key(rows[k]) != id
    ensures r.None? <==> forall k :: 0 <= k < |rows| ==> key(rows[k]) != id
  {
    if |rows| == 0 then None
    else if key(rows[0]) == id then Some(0)
    else match IndexOfId(rows[1..], key, id)
      case None => None
      case Some(k) => Some(k + 1)
  }

  /** The row with the given id, if any. */
  function RowById<T>(rows: seq<T>, key: T -> Id, id: Id): (r: Option<T>)
    ensures r.Some? <==> exists k :: 0 <= k < |rows| && key(rows[k]) == id
    ensures r.Some? ==> r.value in rows && key(r.value) == id
  {
    match IndexOfId(rows, key, id)
    case None => None
    case Some(k) => Some(rows[k])
  }

  /** The table without its `k`-th row. */
  function RemoveAt<T>(rows: seq<T>, k: nat): (r: seq<T>)
    requires k < |rows|
    ensures |r| == |rows| - 1
    ensures forall j :: 0 <= j < k ==> r[j] == rows[j]
    ensures forall j :: k <= j < |r| ==> r[j] == rows[j + 1]
  {
    rows[..k] + rows[k + 1..]
  }

  /** With distinct ids, removing the `k`-th row removes exactly the rows
      with its id, and the ids left stay distinct. */
  lemma RemoveAtKeepsDistinct<T>(rows: seq<T>, key: T -> Id, k: nat)
    requires k < |rows| && DistinctIds(rows, key)
    ensures DistinctIds(RemoveAt(rows, k), key)
    ensures forall x :: x in RemoveAt(rows, k) <==> x in rows && key(x) != key(rows[k])
  {
    var r := RemoveAt(rows, k);
    forall x ensures x in r <==> x in rows && key(x) != key(rows[k]) {
      if x in r {
        var j :| 0 <= j < |r| && r[j] == x;
        if j < k { assert rows[j] == x; } else { assert rows[j + 1] == x; }
      }
      if x in rows && key(x) != key(rows[k]) {
        var j :| 0 <= j < |rows| && rows[j] == x;
        if j < k { assert r[j] == x; } else { assert r[j - 1] == x; }
      }
    }
  }

  /** Concatenation regroups freely. */
  lemma AppendAssoc<T>(x: seq<T>, y: seq<T>, z: seq<T>)
    ensures x + (y + z) == (x + y) + z
  {
  }

  /** Appending a row with a new id keeps the ids distinct. */
  lemma AppendKeepsDistinct<T>(rows: seq<T>, key: T -> Id, x: T)
    requires DistinctIds(rows, key)
    requires forall k :: 0 <= k < |rows| ==> key(rows[k]) != key(x)
    ensures DistinctIds(rows + [x], key)
  {
    var r := rows + [x];
    forall i, j | 0 <= i < j < |r| ensures key(r[i]) != key(r[j]) {
      assert r[i] == rows[i];
    }
  }

  /** Replacing a row by one with the same id keeps the ids distinct. */
  lemma UpdateKeepsDistinct<T>(rows: seq<T>, key: T -> Id, k: nat, x: T)
    requires k < |rows| && DistinctIds(rows, key) && key(x) == key(rows[k])
    ensures DistinctIds(rows[k := x], key)
  {
  }
}
