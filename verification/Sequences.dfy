/** Small facts about sequences and sets: without repetitions, their sizes, and taken apart at their end. */
module Sequences {

  predicate NoRepeats(s: seq<string>) { forall i, j :: 0 <= i < j < |s| ==> s[i] != s[j] }

  function Elements(s: seq<string>): set<string> { set c | c in s }

  lemma {:induction false} ElementsOfMore(s: seq<string>, x: string)
    ensures Elements(s + [x]) == Elements(s) + {x}
  {}

  lemma {:induction false} NoRepeatsOfMore(s: seq<string>, x: string)
    ensures NoRepeats(s + [x]) <==> NoRepeats(s) && x !in s
  {
    var t := s + [x];
    if NoRepeats(t) {
      forall i | 0 <= i < |s| ensures s[i] != x { assert t[i] != t[|s|]; }
      forall i, j | 0 <= i < j < |s| ensures s[i] != s[j] { assert t[i] != t[j]; }
    }
  }

  lemma {:induction false} DistinctBySize(s: seq<string>)
    ensures |Elements(s)| <= |s|
    ensures |Elements(s)| == |s| <==> NoRepeats(s)
    decreases |s|
  {
    if s != [] {
      var rest, last := s[..|s| - 1], s[|s| - 1];
      assert s == rest + [last];
      DistinctBySize(rest);
      ElementsOfMore(rest, last);
      NoRepeatsOfMore(rest, last);
    }
  }

  lemma {:induction false} SubsetSize(a: set<string>, b: set<string>)
    requires a <= b
    ensures |a| <= |b|
    decreases |a|
  {
    if a != {} {
      var x :| x in a;
      SubsetSize(a - {x}, b - {x});
    }
  }

  /** Dropping the last element of a concatenation drops the last of its second part. */
  lemma {:induction false} InitOfConcat<T>(a: seq<T>, b: seq<T>)
    requires b != []
    ensures (a + b)[..|a + b| - 1] == a + b[..|b| - 1] && (a + b)[|a + b| - 1] == b[|b| - 1] && a + b != []
  {}

  lemma {:induction false} ConcatEmpty<T>(a: seq<T>)
    ensures a + [] == a
  {}

  /** One more element of a sequence. */
  lemma {:induction false} TakeMore<T>(a: seq<T>, i: nat)
    requires i < |a|
    ensures a[..i + 1] == a[..i] + [a[i]] && a[..i + 1][..i] == a[..i] && a[..i + 1][i] == a[i]
  {}

  lemma {:induction false} TakeAll<T>(a: seq<T>)
    ensures a[..|a|] == a
  {}
}
