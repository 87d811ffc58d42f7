/** First-occurrence order: what a JavaScript Map, a Python dict or a seen-set keeps of a list. */
module Lists {
  predicate NoDuplicates<T(==,!new)>(s: seq<T>) {
    forall i, j | 0 <= i < j < |s| :: s[i] != s[j]
  }

  /** The list after offering it one more item. */
  function Add<T(==,!new)>(s: seq<T>, x: T): (r: seq<T>)
    ensures NoDuplicates(s) ==> NoDuplicates(r)
    ensures forall y :: y in r <==> y in s || y == x
  {
    if x in s then s
    else
      assert (s + [x])[|s|] == x;
      s + [x]
  }

  /** The items of `s`, each once, in the order they first appear. */
  function Distinct<T(==,!new)>(s: seq<T>): (r: seq<T>)
    ensures NoDuplicates(r)
    ensures forall x :: x in r <==> x in s
    ensures |r| <= |s|
  {
    if s == [] then [] else
      assert s == s[..|s| - 1] + [s[|s| - 1]];
      Add(Distinct(s[..|s| - 1]), s[|s| - 1])
  }

  /** The first place where `x` stands. */
  function IndexOf<T(==,!new)>(s: seq<T>, x: T): (i: nat)
    requires x in s
    ensures i < |s| && s[i] == x && x !in s[..i]
  {
    if s[0] == x then 0 else 1 + IndexOf(s[1..], x)
  }

  /** Distinct orders its items by first appearance. */
  lemma {:induction false} DistinctByFirstAppearance<T(!new)>(s: seq<T>, x: T, y: T)
    requires x in s && y in s
    ensures IndexOf(Distinct(s), x) < IndexOf(Distinct(s), y) <==> IndexOf(s, x) < IndexOf(s, y)
  {
    hide IndexOf;
    var init, last := s[..|s| - 1], s[|s| - 1];
    assert s == init + [last];
    assert Distinct(s) == Add(Distinct(init), last);
    hide Distinct;
    IndexAfterAdd(init, last, x);
    IndexAfterAdd(init, last, y);
    IndexAfterDistinct(init, last, x);
    IndexAfterDistinct(init, last, y);
    if x in init && y in init {
      DistinctByFirstAppearance(init, x, y);
    }
  }

  lemma IndexAfterAdd<T(!new)>(s: seq<T>, last: T, x: T)
    requires x in s + [last]
    ensures IndexOf(s + [last], x) == if x in s then IndexOf(s, x) else |s|
  {
    if x in s { IndexOfPrefix(s, [last], x); }
  }

  lemma IndexAfterDistinct<T(!new)>(s: seq<T>, last: T, x: T)
    requires x in s || x == last
    ensures IndexOf(Add(Distinct(s), last), x) == if x in s then IndexOf(Distinct(s), x) else |Distinct(s)|
  {
    IndexAfterAdd(Distinct(s), last, x);
  }

  lemma {:induction false} IndexOfPrefix<T(!new)>(a: seq<T>, b: seq<T>, x: T)
    requires x in a
    ensures IndexOf(a + b, x) == IndexOf(a, x)
  {
    if a[0] != x {
      assert (a + b)[1..] == a[1..] + b;
      IndexOfPrefix(a[1..], b, x);
    }
  }

  lemma IndexOfUnique<T(!new)>(s: seq<T>, i: nat)
    requires NoDuplicates(s) && i < |s|
    ensures IndexOf(s, s[i]) == i
  {
  }
}
