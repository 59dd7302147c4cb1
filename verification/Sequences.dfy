/** Sequence operations the models share: list.remove, list.index, flattening of request groups. */
module Sequences {

  datatype Option<+T> = None | Some(value: T)

  ghost predicate NoDuplicates<T>(s: seq<T>)
  {
    forall i, j :: 0 <= i < j < |s| ==> s[i] != s[j]
  }

  /** The position of the first x in s, or |s| when there is none. */
  function IndexOf<T(==)>(s: seq<T>, x: T): (i: nat)
    ensures i <= |s|
    ensures i < |s| ==> s[i] == x
    ensures i == |s| <==> x !in s
    ensures forall j :: 0 <= j < i ==> s[j] != x
  {
    if s == [] then 0 else if s[0] == x then 0 else 1 + IndexOf(s[1..], x)
  }

  /** s without its first x; s itself when x does not occur. */
  function Remove<T(==)>(s: seq<T>, x: T): (r: seq<T>)
    ensures x !in s ==> r == s
    ensures x in s ==> |r| == |s| - 1
  {
    var i := IndexOf(s, x);
    if i < |s| then s[..i] + s[i + 1..] else s
  }

  lemma RemoveFromDistinct<T>(s: seq<T>, x: T)
    requires NoDuplicates(s)
    ensures NoDuplicates(Remove(s, x))
    ensures forall y :: y in Remove(s, x) <==> y in s && y != x
  {
    var i := IndexOf(s, x);
    var r := Remove(s, x);
    if i < |s| {
      assert forall k :: 0 <= k < |r| ==> r[k] == s[if k < i then k else k + 1];
      forall y | y in s && y != x ensures y in r {
        var k :| 0 <= k < |s| && s[k] == y;
        assert r[if k < i then k else k - 1] == y;
      }
    }
  }

  lemma {:induction false} IndexOfSnoc<T>(s: seq<T>, x: T)
    ensures forall y :: IndexOf(s, y) < |s| ==> IndexOf(s + [x], y) == IndexOf(s, y)
    ensures x !in s ==> IndexOf(s + [x], x) == |s|
  {
    var t := s + [x];
    forall y | IndexOf(s, y) < |s|
      ensures IndexOf(t, y) == IndexOf(s, y)
    {
      var i := IndexOf(s, y);
      assert t[i] == s[i] == y;
      assert forall j :: 0 <= j < i ==> t[j] == s[j];
    }
    assert t[|s|] == x;
    assert forall j :: 0 <= j < |s| ==> t[j] == s[j];
  }

  lemma IndexOfCons<T>(x: T, w: seq<T>, c: T)
    ensures IndexOf([x] + w, c) == if x == c then 0 else 1 + IndexOf(w, c)
  {
    assert ([x] + w)[1..] == w;
  }

  /** Removing c from [x] + w. */
  lemma RemoveCons<T>(x: T, w: seq<T>, c: T)
    ensures Remove([x] + w, c) == if x == c then w else [x] + Remove(w, c)
  {
    IndexOfCons(x, w, c);
    hide IndexOf;
    var i := IndexOf(w, c);
    if x == c {
      ConsSlices(x, w, 0);
      assert [] + w == w;
    } else if i < |w| {
      ConsSlices(x, w, i + 1);
      ConcatAssociative([x], w[..i], w[i + 1..]);
    }
  }

  lemma ConsSlices<T>(x: T, w: seq<T>, i: nat)
    requires i <= |w|
    ensures ([x] + w)[..i] == if i == 0 then [] else [x] + w[..i - 1]
    ensures ([x] + w)[i + 1..] == w[i..]
  {
  }

  /** Removing x from s + [y]. */
  lemma RemoveSnoc<T>(s: seq<T>, y: T, x: T)
    requires y !in s
    ensures Remove(s + [y], x) == if x == y then s else Remove(s, x) + [y]
  {
    hide IndexOf;
    var t := s + [y];
    IndexOfSnoc(s, y);
    var k := IndexOf(s, x);
    if x == y {
      assert t[..|s|] == s && t[|s| + 1..] == [];
    } else if k < |s| {
      assert t[..k] == s[..k] && t[k + 1..] == s[k + 1..] + [y];
    } else {
      assert x !in t;
    }
  }

  /** The groups laid end to end. */
  function Flatten<T>(groups: seq<seq<T>>): (r: seq<T>)
  {
    if groups == [] then [] else Flatten(groups[..|groups| - 1]) + groups[|groups| - 1]
  }

  lemma {:induction false} FlattenConcat<T>(a: seq<seq<T>>, b: seq<seq<T>>)
    ensures Flatten(a + b) == Flatten(a) + Flatten(b)
  {
    if b == [] {
      assert a + b == a;
    } else {
      var front := b[..|b| - 1];
      FlattenConcat(a, front);
      assert (a + b)[..|a + b| - 1] == a + front;
      assert (Flatten(a) + Flatten(front)) + b[|b| - 1] == Flatten(a) + (Flatten(front) + b[|b| - 1]);
    }
  }

  lemma FlattenOne<T>(g: seq<T>)
    ensures Flatten([g]) == g
  {
    assert Flatten([g]) == Flatten([g][..0]) + g;
  }

  lemma FlattenCons<T>(g: seq<T>, rest: seq<seq<T>>)
    ensures Flatten([g] + rest) == g + Flatten(rest)
  {
    FlattenConcat([g], rest);
    FlattenOne(g);
  }

  lemma NoDuplicatesSnoc<T>(s: seq<T>, x: T)
    requires NoDuplicates(s) && x !in s
    ensures NoDuplicates(s + [x])
  {
  }

  lemma ConcatAssociative<T>(a: seq<T>, b: seq<T>, c: seq<T>)
    ensures (a + b) + c == a + (b + c)
  {
  }

  /** The first element of b goes to the end of a. */
  lemma MoveHead<T>(a: seq<T>, b: seq<T>)
    requires b != []
    ensures (a + [b[0]]) + b[1..] == a + b
  {
  }
}
