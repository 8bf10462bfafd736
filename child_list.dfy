/**
 * The two Python list operations the cache applies to a `children` list:
 * `list.insert`, which clamps its index, and `list.remove`, which drops the
 * first occurrence and raises ValueError when there is none.
 */
module ChildList {
  import opened Atspi

  /**
   * The position `list.insert(i, x)` puts `x` at in a list of length `n`:
   * a negative index counts from the end, and either end clamps.
   */
  function InsertPosition(i: int, n: nat): (k: nat)
    ensures k <= n
    ensures 0 <= i <= n ==> k == i
    ensures n < i ==> k == n
    ensures i < 0 ==> k == if i + n < 0 then 0 else i + n
  {
    if i < 0 then (if i + n < 0 then 0 else i + n)
    else if i > n then n
    else i
  }

  /** `s.insert(i, x)`. */
  function Insert<T>(s: seq<T>, i: int, x: T): (r: seq<T>)
    ensures |r| == |s| + 1
    ensures r[InsertPosition(i, |s|)] == x
    ensures var k := InsertPosition(i, |s|); r[..k] + r[k + 1..] == s
    ensures multiset(r) == multiset(s) + multiset{x}
  {
    var k := InsertPosition(i, |s|);
    assert s == s[..k] + s[k..];
    s[..k] + [x] + s[k..]
  }

  /** `s.index(x)`, with -1 where Python raises. */
  function IndexOf<T(==)>(s: seq<T>, x: T): (k: int)
    ensures -1 <= k < |s|
    ensures k == -1 <==> x !in s
    ensures 0 <= k ==> s[k] == x && x !in s[..k]
  {
    if |s| == 0 then -1
    else if s[0] == x then 0
    else
      var j := IndexOf(s[1..], x);
      assert j >= 0 ==> s[..j + 1] == [s[0]] + s[1..][..j];
      if j < 0 then -1 else j + 1
  }

  /** `s.remove(x)`: drops the first occurrence of `x`, or raises ValueError. */
  function Remove<T(==)>(s: seq<T>, x: T): (r: Result<seq<T>>)
    ensures r.Raised? <==> x !in s
    ensures r.Raised? ==> r.error == ValueError
    ensures r.Ok? ==> exists k :: 0 <= k < |s| && s[k] == x && x !in s[..k] && r.value == s[..k] + s[k + 1..]
    ensures r.Ok? ==> |r.value| == |s| - 1 && multiset(r.value) == multiset(s) - multiset{x}
  {
    var k := IndexOf(s, x);
    if k < 0 then Raised(ValueError)
    else
      assert s == s[..k] + [x] + s[k + 1..];
      Ok(s[..k] + s[k + 1..])
  }

  /** The first occurrence is the only index before which `x` does not occur. */
  lemma {:induction false} IndexOfFirst<T>(s: seq<T>, x: T, k: nat)
    requires k < |s| && s[k] == x && x !in s[..k]
    ensures IndexOf(s, x) == k
  {
    if k > 0 {
      assert s[0] in s[..k];
      assert s[1..][..k - 1] == s[1..k];
      assert forall y :: y in s[1..k] ==> y in s[..k];
      IndexOfFirst(s[1..], x, k - 1);
    }
  }

  /**
   * Inserting a child that was not in the list and then removing it gives
   * back the original list, whatever index the insertion used.
   */
  lemma RemoveInserted<T>(s: seq<T>, i: int, x: T)
    requires x !in s
    ensures Remove(Insert(s, i, x), x) == Ok(s)
  {
    var k := InsertPosition(i, |s|);
    var t := Insert(s, i, x);
    assert t[..k] == s[..k];
    assert x !in s[..k] by {
      assert forall y :: y in s[..k] ==> y in s;
    }
    IndexOfFirst(t, x, k);
    assert t[k + 1..] == s[k..];
    assert s == s[..k] + s[k..];
  }

  /**
   * The round trip needs the child to be absent beforehand: with an earlier
   * copy present, `remove` takes that one instead.
   */
  lemma RemoveInsertedNeedsAbsence()
    ensures Remove(Insert([1, 2], 2, 1), 1) == Ok([2, 1])
  {
    assert Insert([1, 2], 2, 1) == [1, 2, 1];
    IndexOfFirst([1, 2, 1], 1, 0);
    assert [1, 2, 1][..0] + [1, 2, 1][1..] == [2, 1];
  }
}
