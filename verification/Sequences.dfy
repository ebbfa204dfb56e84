/**
 Sequences without repetition, and the elements of a sequence that pass a test.
 */
module Sequences {

  ghost predicate NoRepeats<T>(s: seq<T>) {
    forall i, j :: 0 <= i < j < |s| ==> s[i] != s[j]
  }

  lemma NoRepeatsInTwo<T(!new)>(a: seq<T>, b: seq<T>)
    requires NoRepeats(a) && NoRepeats(b) && forall x :: x in a ==> x !in b
    ensures NoRepeats(a + b)
  {
    forall i, j | 0 <= i < j < |a + b| ensures (a + b)[i] != (a + b)[j] {
      if i < |a| <= j {
        assert (a + b)[i] in a && (a + b)[j] in b;
      }
    }
  }

  /** The elements that pass, in their order. */
  function Filtered<T(!new)>(s: seq<T>, passes: T -> bool): (r: seq<T>)
    ensures forall x :: x in r <==> x in s && passes(x)
  {
    if |s| == 0 then []
    else if passes(s[0]) then [s[0]] + Filtered(s[1..], passes)
    else Filtered(s[1..], passes)
  }

  lemma HeadAndTailOfSum<T(!new)>(a: seq<T>, b: seq<T>)
    requires |a| > 0
    ensures (a + b)[0] == a[0] && (a + b)[1..] == a[1..] + b
  {
  }

  lemma ShiftHead<T(!new)>(a: seq<T>, b: seq<T>)
    requires |b| > 0
    ensures (a + [b[0]]) + b[1..] == a + b
  {
  }

  lemma SumIsAssociative<T(!new)>(a: seq<T>, b: seq<T>, c: seq<T>)
    ensures (a + b) + c == a + (b + c)
  {
  }

  lemma {:induction false} FilteredDistributes<T(!new)>(a: seq<T>, b: seq<T>, passes: T -> bool)
    ensures Filtered(a + b, passes) == Filtered(a, passes) + Filtered(b, passes)
  {
    if |a| == 0 {
      assert a + b == b;
    } else {
      FilteredDistributes(a[1..], b, passes);
      HeadAndTailOfSum(a, b);
      if passes(a[0]) {
        SumIsAssociative([a[0]], Filtered(a[1..], passes), Filtered(b, passes));
      }
    }
  }

  lemma {:induction false} FilteredTwice<T(!new)>(s: seq<T>, p: T -> bool, q: T -> bool, both: T -> bool)
    requires forall x :: x in s ==> (both(x) <==> p(x) && q(x))
    ensures Filtered(Filtered(s, p), q) == Filtered(s, both)
  {
    if |s| > 0 {
      FilteredTwice(s[1..], p, q, both);
      FilteredDistributes([s[0]], Filtered(s[1..], p), q);
    }
  }

  lemma {:induction false} AllPass<T(!new)>(s: seq<T>, passes: T -> bool)
    requires forall x :: x in s ==> passes(x)
    ensures Filtered(s, passes) == s
  {
    if |s| > 0 {
      AllPass(s[1..], passes);
    }
  }

  /** Two elements that pass stand in the order they had. */
  lemma {:induction false} FilteredInOrder<T(!new)>(s: seq<T>, passes: T -> bool, i: nat, j: nat)
    returns (k: nat, l: nat)
    requires i < j < |Filtered(s, passes)|
    ensures k < l < |s| && s[k] == Filtered(s, passes)[i] && s[l] == Filtered(s, passes)[j]
  {
    var f := Filtered(s, passes);
    if !passes(s[0]) {
      k, l := FilteredInOrder(s[1..], passes, i, j);
      return k + 1, l + 1;
    } else if i > 0 {
      k, l := FilteredInOrder(s[1..], passes, i - 1, j - 1);
      return k + 1, l + 1;
    } else {
      assert f[j] == f[1..][j - 1] && f[j] in s[1..];
      l :| 0 <= l < |s[1..]| && s[1..][l] == f[j];
      return 0, l + 1;
    }
  }
}
