/** Small value types and list operations shared by the server and client models:
    JavaScript's `null`-or-value fields, and the two array idioms the chat code
    uses on name lists: `if (!a.includes(x)) a.push(x)` and `a.filter(u => u !== x)`. */
module Base {

  /** A value that may be absent (`null` in the JavaScript source). */
  datatype Option<+T> = None | Some(value: T)

  /** JavaScript truthiness of a string that may be `null`: `null` and "" are false. */
  predicate Truthy(s: Option<string>)
  {
    s.Some? && s.value != ""
  }

  /** No element occurs twice. */
  predicate NoDuplicates<T(==,!new)>(s: seq<T>)
  {
    forall i, j :: 0 <= i < j < |s| ==> s[i] != s[j]
  }

  /** `s.filter(u => u !== x)`: every occurrence of `x` removed, the rest kept in order. */
  function Without<T(==,!new)>(s: seq<T>, x: T): (r: seq<T>)
    ensures |r| <= |s|
    ensures x !in r
    ensures forall y :: y in r <==> y in s && y != x
    ensures NoDuplicates(s) ==> NoDuplicates(r)
  {
    if s == [] then []
    else if s[0] == x then Without(s[1..], x)
    else
      var rest := Without(s[1..], x);
      assert forall y :: y in rest ==> y in s[1..];
      assert NoDuplicates(s) ==> s[0] !in s[1..];
      [s[0]] + rest
  }

  /** `if (!s.includes(x)) s.push(x)`: append `x` unless it is already present. */
  function AddOnce<T(==,!new)>(s: seq<T>, x: T): (r: seq<T>)
    ensures x in r
    ensures forall y :: y in r <==> y in s || y == x
    ensures NoDuplicates(s) ==> NoDuplicates(r)
    ensures x in s ==> r == s
    ensures x !in s ==> r == s + [x]
  {
    if x in s then s else s + [x]
  }

  /** Filtering out a value that does not occur changes nothing. */
  lemma {:induction false} WithoutAbsent<T(!new)>(s: seq<T>, x: T)
    requires x !in s
    ensures Without(s, x) == s
  {
    if s != [] {
      WithoutAbsent(s[1..], x);
    }
  }

  /** Filtering twice by the same value is filtering once. */
  lemma WithoutIdempotent<T(!new)>(s: seq<T>, x: T)
    ensures Without(Without(s, x), x) == Without(s, x)
  {
    WithoutAbsent(Without(s, x), x);
  }

  /** Filtering drops exactly the occurrences of `x`: every other value occurs as often as
      before, so the length shrinks by the number of `x`s. */
  lemma {:induction false} WithoutCount<T(!new)>(s: seq<T>, x: T)
    ensures |Without(s, x)| == |s| - multiset(s)[x]
    ensures forall y :: y != x ==> multiset(Without(s, x))[y] == multiset(s)[y]
  {
    if s != [] {
      WithoutCount(s[1..], x);
      assert s == [s[0]] + s[1..];
      assert multiset(s) == multiset{s[0]} + multiset(s[1..]);
      if s[0] != x {
        assert Without(s, x) == [s[0]] + Without(s[1..], x);
        assert multiset(Without(s, x)) == multiset{s[0]} + multiset(Without(s[1..], x));
      }
    }
  }

  /** Filtering a one-element list keeps that element exactly when it differs from `x`. */
  lemma WithoutSingleton<T(!new)>(y: T, x: T)
    ensures Without([y], x) == if y == x then [] else [y]
  {
    assert [y][1..] == [];
  }

  /** Filtering a concatenation filters each part and keeps them in order; with
      `WithoutSingleton` this fixes the result as the elements other than `x`, in their
      original order. */
  lemma {:induction false} WithoutAppend<T(!new)>(a: seq<T>, b: seq<T>, x: T)
    ensures Without(a + b, x) == Without(a, x) + Without(b, x)
  {
    if a == [] {
      assert a + b == b;
    } else {
      assert (a + b)[0] == a[0];
      assert (a + b)[1..] == a[1..] + b;
      WithoutAppend(a[1..], b, x);
      if a[0] != x {
        assert [a[0]] + (Without(a[1..], x) + Without(b, x)) == ([a[0]] + Without(a[1..], x)) + Without(b, x);
      }
    }
  }

  /** Adding a name that was absent and then filtering it out gives back the original list. */
  lemma AddThenRemove<T(!new)>(s: seq<T>, x: T)
    requires x !in s
    ensures Without(AddOnce(s, x), x) == s
  {
    AddThenRemoveAppend(s, x);
  }

  lemma {:induction false} AddThenRemoveAppend<T(!new)>(s: seq<T>, x: T)
    requires x !in s
    ensures Without(s + [x], x) == s
  {
    if s == [] {
      assert [] + [x] == [x];
      assert [x][1..] == [];
    } else {
      assert (s + [x])[1..] == s[1..] + [x];
      AddThenRemoveAppend(s[1..], x);
      assert s == [s[0]] + s[1..];
    }
  }
}
