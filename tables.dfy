/** Behaviour shared by every keyed table in the model. A table is the
    sequence of its rows in store order; `key` projects a row onto its
    primary key. Entity Framework's `FindAsync`, LINQ's `FirstOrDefault`
    on a key, `Add`, `Remove` and key generation are defined here once. */
module Tables {
  import opened Wrappers

  /** Why a save failed: the row's explicit key is already in use. */
  datatype StoreError = DuplicateKey

  /** No two rows share a key. */
  ghost predicate UniqueKeys<T>(rows: seq<T>, key: T -> int)
  {
    forall i, j :: 0 <= i < j < |rows| ==> key(rows[i]) != key(rows[j])
  }

  /** No row has key `k`. */
  ghost predicate KeyAbsent<T>(rows: seq<T>, key: T -> int, k: int)
  {
    forall i :: 0 <= i < |rows| ==> key(rows[i]) != k
  }

  /** Position of the first row whose key is `k`. */
  function IndexOf<T>(rows: seq<T>, key: T -> int, k: int): (r: Option<nat>)
    ensures r.None? <==> KeyAbsent(rows, key, k)
    ensures r.Some? ==> r.value < |rows| && key(rows[r.value]) == k
    ensures r.Some? ==> forall i :: 0 <= i < r.value ==> key(rows[i]) != k
  {
    if |rows| == 0 then None
    else if key(rows[0]) == k then Some(0)
    else match IndexOf(rows[1..], key, k)
      case None => None
      case Some(i) => Some(i + 1)
  }

  /** The first row whose key is `k`, or None (C#'s null). */
  function Find<T>(rows: seq<T>, key: T -> int, k: int): (r: Option<T>)
    ensures r.None? <==> KeyAbsent(rows, key, k)
    ensures r.Some? ==> key(r.value) == k && exists i :: 0 <= i < |rows| && rows[i] == r.value
  {
    match IndexOf(rows, key, k)
    case None => None
    case Some(i) => Some(rows[i])
  }

  /** Every row but the one at `i`, the others in their order. */
  function RemoveAt<T>(rows: seq<T>, i: nat): (r: seq<T>)
    requires i < |rows|
    ensures |r| == |rows| - 1
    ensures forall j :: 0 <= j < i ==> r[j] == rows[j]
    ensures forall j :: i <= j < |r| ==> r[j] == rows[j + 1]
  {
    rows[..i] + rows[i + 1..]
  }

  /** The key the store generates for a new row: one more than the largest
      key in use, and at least 1. */
  function NextKey<T>(rows: seq<T>, key: T -> int): (k: int)
    ensures k >= 1
    ensures forall i :: 0 <= i < |rows| ==> key(rows[i]) < k
  {
    if |rows| == 0 then 1
    else
      var k' := NextKey(rows[..|rows| - 1], key);
      var last := key(rows[|rows| - 1]);
      if last >= k' then last + 1 else k'
  }

  /** The key under which `Add` followed by `SaveChanges` stores a row whose
      key property holds `requested`: 0 asks the store to generate one, any
      other value is kept, and a value already in use makes the save throw
      (None). */
  function ChooseKey<T>(rows: seq<T>, key: T -> int, requested: int): (r: Option<int>)
    ensures r.Some? ==> KeyAbsent(rows, key, r.value)
    ensures requested == 0 ==> r.Some? && r.value >= 1
    ensures requested != 0 ==> (r.Some? <==> KeyAbsent(rows, key, requested))
    ensures requested != 0 && r.Some? ==> r.value == requested
  {
    if requested == 0 then Some(NextKey(rows, key))
    else if IndexOf(rows, key, requested).Some? then None
    else Some(requested)
  }

  /** The contract of IndexOf pins its result down. */
  lemma IndexOfIs<T>(rows: seq<T>, key: T -> int, k: int, i: nat)
    requires i < |rows| && key(rows[i]) == k
    requires forall j :: 0 <= j < i ==> key(rows[j]) != k
    ensures IndexOf(rows, key, k) == Some(i)
  {
  }

  /** Appending a row with a fresh key makes it the row found under that
      key and changes no other lookup. */
  lemma AppendFind<T>(rows: seq<T>, key: T -> int, row: T)
    requires KeyAbsent(rows, key, key(row))
    ensures IndexOf(rows + [row], key, key(row)) == Some(|rows|)
    ensures forall k :: k != key(row) ==> IndexOf(rows + [row], key, k) == IndexOf(rows, key, k)
  {
    IndexOfIs(rows + [row], key, key(row), |rows|);
    forall k | k != key(row)
      ensures IndexOf(rows + [row], key, k) == IndexOf(rows, key, k)
    {
      match IndexOf(rows, key, k)
      case None =>
        assert KeyAbsent(rows + [row], key, k);
      case Some(i) =>
        IndexOfIs(rows + [row], key, k, i);
    }
  }

  /** Appending a row with a fresh key keeps keys unique. */
  lemma AppendUnique<T>(rows: seq<T>, key: T -> int, row: T)
    requires UniqueKeys(rows, key) && KeyAbsent(rows, key, key(row))
    ensures UniqueKeys(rows + [row], key)
  {
  }

  /** Removing the row found under `k` from a table with unique keys leaves
      no row with that key, and changes no other lookup. */
  lemma RemoveFind<T>(rows: seq<T>, key: T -> int, k: int, i: nat)
    requires UniqueKeys(rows, key)
    requires IndexOf(rows, key, k) == Some(i)
    ensures UniqueKeys(RemoveAt(rows, i), key)
    ensures KeyAbsent(RemoveAt(rows, i), key, k)
    ensures forall k' :: k' != k ==> Find(RemoveAt(rows, i), key, k') == Find(rows, key, k')
  {
    var r := RemoveAt(rows, i);
    forall k' | k' != k
      ensures Find(r, key, k') == Find(rows, key, k')
    {
      match IndexOf(rows, key, k')
      case None =>
        assert KeyAbsent(r, key, k');
      case Some(j) =>
        if j < i {
          IndexOfIs(r, key, k', j);
        } else {
          assert j != i;
          IndexOfIs(r, key, k', j - 1);
        }
    }
  }

  /** Overwriting the row at `i` with a row under the same key keeps keys
      unique, finds the new row under that key, and changes no other
      lookup. */
  lemma ReplaceFind<T>(rows: seq<T>, key: T -> int, i: nat, row: T)
    requires UniqueKeys(rows, key)
    requires i < |rows| && key(row) == key(rows[i])
    ensures UniqueKeys(rows[i := row], key)
    ensures Find(rows[i := row], key, key(row)) == Some(row)
    ensures forall k' :: k' != key(row) ==> Find(rows[i := row], key, k') == Find(rows, key, k')
  {
    var r := rows[i := row];
    IndexOfIs(r, key, key(row), i);
    forall k' | k' != key(row)
      ensures Find(r, key, k') == Find(rows, key, k')
    {
      match IndexOf(rows, key, k')
      case None =>
        assert KeyAbsent(r, key, k');
      case Some(j) =>
        IndexOfIs(r, key, k', j);
    }
  }
}
