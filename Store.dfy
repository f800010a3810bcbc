/** The repository as a table: the rows in the order a query without `OrderBy`
    yields them, which is ascending identity because every new row gets an
    identity above all existing ones. A table is generic in its row type; `key`
    reads a row's identity. */
module Store {
  import opened Wrappers

  /** Identities strictly increase along the table, so each is held once. */
  ghost predicate KeysIncreasing<E>(rows: seq<E>, key: E -> int) {
    forall i, j | 0 <= i < j < |rows| :: key(rows[i]) < key(rows[j])
  }

  ghost predicate HasKey<E>(rows: seq<E>, key: E -> int, id: int) {
    exists i | 0 <= i < |rows| :: key(rows[i]) == id
  }

  /** The position of the first row with identity `id`, if any. */
  function IndexOfKey<E>(rows: seq<E>, key: E -> int, id: int): (r: Option<nat>)
    ensures r.Some? ==> r.value < |rows| && key(rows[r.value]) == id
    ensures r.Some? ==> forall j | 0 <= j < r.value :: key(rows[j]) != id
    ensures r.None? <==> !HasKey(rows, key, id)
  {
    if |rows| == 0 then None
    else if key(rows[0]) == id then Some(0)
    else
      var r := IndexOfKey(rows[1..], key, id);
      assert forall j | 0 <= j < |rows[1..]| :: rows[1..][j] == rows[j + 1];
      assert r.None? ==> !HasKey(rows, key, id) by {
        if r.None? {
          forall i | 0 <= i < |rows| ensures key(rows[i]) != id {
            if i > 0 {
              assert rows[1..][i - 1] == rows[i];
            }
          }
        }
      }
      match r
      case None => None
      case Some(i) => Some(i + 1)
  }

  /** `DbSet.Find(id)`, and `FirstOrDefault(p => p.Id == id)`: the first row
      with that identity, or `None`. */
  function Find<E>(rows: seq<E>, key: E -> int, id: int): (r: Option<E>)
    ensures r.Some? <==> HasKey(rows, key, id)
    ensures r.Some? ==> r.value in rows && key(r.value) == id
  {
    match IndexOfKey(rows, key, id)
    case None => None
    case Some(i) => Some(rows[i])
  }

  /** The identity the store gives a new row: one past the largest (1 for an empty table). */
  function NextKey<E>(rows: seq<E>, key: E -> int): (id: int)
    requires KeysIncreasing(rows, key)
    ensures forall i | 0 <= i < |rows| :: key(rows[i]) < id
    ensures rows == [] ==> id == 1
  {
    if rows == [] then 1 else key(rows[|rows| - 1]) + 1
  }

  /** The rows other than the one with identity `id`, in their order. */
  function RemoveKey<E>(rows: seq<E>, key: E -> int, id: int): (r: seq<E>)
    ensures forall e | e in r :: e in rows && key(e) != id
    ensures forall e | e in rows && key(e) != id :: e in r
    ensures !HasKey(rows, key, id) ==> r == rows
  {
    if rows == [] then []
    else
      var rest := RemoveKey(rows[1..], key, id);
      assert forall e | e in rows && e != rows[0] :: e in rows[1..];
      assert !HasKey(rows, key, id) ==> !HasKey(rows[1..], key, id) by {
        forall j | 0 <= j < |rows[1..]| ensures rows[1..][j] == rows[j + 1] { }
      }
      if key(rows[0]) == id then rest else [rows[0]] + rest
  }

  /** Removing a row keeps identities increasing. */
  lemma {:induction false} RemoveKeepsIncreasing<E>(rows: seq<E>, key: E -> int, id: int)
    requires KeysIncreasing(rows, key)
    ensures KeysIncreasing(RemoveKey(rows, key, id), key)
    ensures !HasKey(RemoveKey(rows, key, id), key, id)
  {
    var r := RemoveKey(rows, key, id);
    forall j | 0 <= j < |r| ensures key(r[j]) != id {
      assert r[j] in r;
    }
    if rows != [] {
      assert KeysIncreasing(rows[1..], key) by {
        forall i, j | 0 <= i < j < |rows[1..]| ensures key(rows[1..][i]) < key(rows[1..][j]) {
          assert rows[1..][i] == rows[i + 1] && rows[1..][j] == rows[j + 1];
        }
      }
      RemoveKeepsIncreasing(rows[1..], key, id);
      var rest := RemoveKey(rows[1..], key, id);
      if key(rows[0]) != id {
        forall e | e in rest ensures key(rows[0]) < key(e) {
          var j :| 0 <= j < |rows[1..]| && rows[1..][j] == e;
          assert rows[j + 1] == e;
        }
        PrependIncreasing(rows[0], rest, key);
      }
    }
  }

  lemma PrependIncreasing<E>(e: E, rest: seq<E>, key: E -> int)
    requires forall x | x in rest :: key(e) < key(x)
    requires KeysIncreasing(rest, key)
    ensures KeysIncreasing([e] + rest, key)
  {
    forall i, j | 0 <= i < j < |[e] + rest| ensures key(([e] + rest)[i]) < key(([e] + rest)[j]) {
      assert ([e] + rest)[j] == rest[j - 1];
      assert rest[j - 1] in rest;
      if i > 0 {
        assert ([e] + rest)[i] == rest[i - 1];
      }
    }
  }

  /** Adding the row that received `NextKey` keeps identities increasing. */
  lemma {:induction false} AppendNextKeepsIncreasing<E>(rows: seq<E>, key: E -> int, e: E)
    requires KeysIncreasing(rows, key)
    requires key(e) == NextKey(rows, key)
    ensures KeysIncreasing(rows + [e], key)
    ensures Find(rows + [e], key, key(e)) == Some(e)
  {
    var r := rows + [e];
    forall i, j | 0 <= i < j < |r| ensures key(r[i]) < key(r[j]) {
      if j < |rows| {
        assert r[i] == rows[i] && r[j] == rows[j];
      } else {
        assert r[i] == rows[i];
      }
    }
    assert r[|r| - 1] == e;
  }

  /** Overwriting a row with one of the same identity keeps identities increasing
      and leaves every other identity's row as it was. */
  lemma {:induction false} ReplaceKeepsIncreasing<E>(rows: seq<E>, key: E -> int, i: nat, e: E)
    requires KeysIncreasing(rows, key)
    requires i < |rows| && key(e) == key(rows[i])
    ensures KeysIncreasing(rows[i := e], key)
    ensures forall id | id != key(e) :: Find(rows[i := e], key, id) == Find(rows, key, id)
    ensures Find(rows[i := e], key, key(e)) == Some(e)
  {
    var r := rows[i := e];
    assert forall k | 0 <= k < |rows| :: key(r[k]) == key(rows[k]);
    FindUnique(r, key, i);
    forall id | id != key(e) ensures Find(r, key, id) == Find(rows, key, id) {
      SameFindOffIndex(rows, key, i, e, id);
    }
  }

  /** In a table with increasing identities, `Find` returns the row at the identity's position. */
  lemma FindUnique<E>(rows: seq<E>, key: E -> int, i: nat)
    requires KeysIncreasing(rows, key)
    requires i < |rows|
    ensures Find(rows, key, key(rows[i])) == Some(rows[i])
  {
    var r := IndexOfKey(rows, key, key(rows[i]));
    assert HasKey(rows, key, key(rows[i]));
    assert r.value == i;
  }

  lemma {:induction false} SameFindOffIndex<E>(rows: seq<E>, key: E -> int, i: nat, e: E, id: int)
    requires KeysIncreasing(rows, key)
    requires i < |rows| && key(e) == key(rows[i]) && id != key(e)
    ensures Find(rows[i := e], key, id) == Find(rows, key, id)
  {
    var r := rows[i := e];
    if HasKey(rows, key, id) {
      var j :| 0 <= j < |rows| && key(rows[j]) == id;
      assert j != i && r[j] == rows[j];
      assert KeysIncreasing(r, key) by {
        assert forall k | 0 <= k < |rows| :: key(r[k]) == key(rows[k]);
      }
      FindUnique(rows, key, j);
      FindUnique(r, key, j);
    } else {
      forall j | 0 <= j < |r| ensures key(r[j]) != id {
        assert key(r[j]) == key(rows[j]);
      }
    }
  }
}
