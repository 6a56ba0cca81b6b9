/**
 The reallocating pointer array behind the channel list.  The caller holds a
 possibly null array and a count; both operations hand back the new pair.
 `allocates` says whether the allocator grants the new block.
 */
module PointerArray {
  import opened Wrappers

  /** The pointers stored in an array of the given size. */
  ghost function Contents<T>(a: array?<T>, size: nat): seq<T>
    requires a != null ==> size <= a.Length
    reads a
  {
    if a == null then [] else a[..size]
  }

  /** Position of the first occurrence, or the length when there is none. */
  function IndexOf<T(==)>(s: seq<T>, x: T): (k: nat)
    ensures k <= |s| && x !in s[..k]
    ensures k < |s| ==> s[k] == x
    ensures k < |s| <==> x in s
  {
    if s == [] then 0 else if s[0] == x then 0 else 1 + IndexOf(s[1..], x)
  }

  method Add<T(==)>(a: array?<T>, size: nat, data: T, allocates: bool) returns (rc: int, a': array?<T>, size': nat)
    requires a != null ==> size <= a.Length
    ensures rc == SUCCESS || rc == ERROR
    ensures rc == SUCCESS <==> allocates && (a != null || size == 0)
    ensures rc == ERROR ==> a' == a && size' == size
    ensures rc == SUCCESS ==> a' != null && fresh(a') && size' == size + 1 == a'.Length
    ensures rc == SUCCESS ==> Contents(a', size') == old(Contents(a, size)) + [data]
  {
    if a == null && size != 0 {
      return ERROR, a, size;
    }
    if !allocates {
      return ERROR, a, size;
    }
    size' := size + 1;
    a' := new T[size'](_ => data);
    if a != null {
      forall i | 0 <= i < size {
        a'[i] := a[i];
      }
    }
    a'[size] := data;
    rc := SUCCESS;
  }

  method Remove<T(==)>(a: array?<T>, size: nat, data: T, allocates: bool) returns (rc: int, a': array?<T>, size': nat)
    requires if a == null then size == 0 else size <= a.Length
    ensures rc == SUCCESS || rc == ERROR
    ensures rc == SUCCESS <==> data in old(Contents(a, size)) && (size == 1 || allocates)
    ensures rc == ERROR ==> a' == a && size' == size
    ensures rc == SUCCESS ==> size' == size - 1 && (a' == null <==> size' == 0)
    ensures rc == SUCCESS ==> a' != null ==> fresh(a') && a'.Length == size'
    ensures rc == SUCCESS ==>
              Contents(a', size') == Without(old(Contents(a, size)), IndexOf(old(Contents(a, size)), data))
  {
    var i := 0;
    while i < size
      invariant 0 <= i <= size
      invariant data !in Contents(a, size)[..i]
    {
      if a[i] == data {
        assert IndexOf(Contents(a, size), data) == i;
        if size == 1 {
          a' := null;
        } else {
          if !allocates {
            return ERROR, a, size;
          }
          a' := new T[size - 1](_ => data);
          forall j | 0 <= j < i {
            a'[j] := a[j];
          }
          if i + 1 < size {
            forall j | i <= j < size - 1 {
              a'[j] := a[j + 1];
            }
          }
        }
        return SUCCESS, a', size - 1;
      }
      i := i + 1;
    }
    return ERROR, a, size;
  }

  lemma IndexOfIs<T>(s: seq<T>, x: T, k: nat)
    requires k < |s| && s[k] == x && x !in s[..k]
    ensures IndexOf(s, x) == k
  {
    if k == 0 {
    } else {
      assert s[0] == s[..k][0];
      assert s[1..][..k - 1] == s[..k][1..];
      IndexOfIs(s[1..], x, k - 1);
    }
  }

  lemma IndexOfUnique<T>(s: seq<T>, x: T, k: nat)
    requires k < |s| && s[k] == x
    requires forall i :: 0 <= i < |s| && i != k ==> s[i] != x
    ensures IndexOf(s, x) == k
  {
    IndexOfIs(s, x, k);
  }

  /** Adding a pointer and then removing it gives back the list it was added to, or,
      when the list held it already, takes out the older occurrence. */
  lemma AddThenRemove<T>(s: seq<T>, x: T)
    ensures x !in s ==> Without(s + [x], IndexOf(s + [x], x)) == s
    ensures x in s ==> Without(s + [x], IndexOf(s + [x], x)) == Without(s, IndexOf(s, x)) + [x]
  {
    var k := IndexOf(s, x);
    assert (s + [x])[..k] == s[..k];
    IndexOfIs(s + [x], x, k);
    SnocWithout(s, x, k);
    hide Without, IndexOf;
  }

  lemma SnocWithout<T>(s: seq<T>, x: T, k: nat)
    requires k <= |s|
    ensures Without(s + [x], k) == if k < |s| then Without(s, k) + [x] else s
  {
  }

  lemma WithoutElements<T>(s: seq<T>, k: nat)
    requires k < |s|
    ensures multiset(Without(s, k)) == multiset(s) - multiset{s[k]}
    ensures forall i :: 0 <= i < k ==> Without(s, k)[i] == s[i]
    ensures forall i :: k <= i < |s| - 1 ==> Without(s, k)[i] == s[i + 1]
  {
    assert s == s[..k] + [s[k]] + s[k + 1..];
  }
}
