/** Code-point order on strings, and the key order that `sorted` gives to the fields of an object. */
module Ordering {

  datatype Field<+T> = Field(key: string, value: T)

  /** `a` comes strictly before `b` in code-point order. */
  predicate Below(a: string, b: string) {
    if b == "" then false
    else if a == "" then true
    else a[0] < b[0] || (a[0] == b[0] && Below(a[1..], b[1..]))
  }

  lemma {:induction false} BelowIrreflexive(a: string)
    ensures !Below(a, a)
  {
    if a != "" { BelowIrreflexive(a[1..]); }
  }

  lemma {:induction false} BelowTransitive(a: string, b: string, c: string)
    requires Below(a, b) && Below(b, c)
    ensures Below(a, c)
  {
    if a != "" && a[0] == b[0] && b[0] == c[0] { BelowTransitive(a[1..], b[1..], c[1..]); }
  }

  lemma {:induction false} BelowTotal(a: string, b: string)
    ensures Below(a, b) || a == b || Below(b, a)
  {
    if a != "" && b != "" && a[0] == b[0] {
      BelowTotal(a[1..], b[1..]);
      assert a == [a[0]] + a[1..] && b == [b[0]] + b[1..];
    }
  }

  lemma BelowAsymmetric(a: string, b: string)
    requires Below(a, b)
    ensures !Below(b, a) && a != b
  {
    BelowIrreflexive(a);
    if Below(b, a) { BelowTransitive(a, b, a); }
  }

  /** The two strings part at `k`: they agree before it, and there the first one ends or has the smaller character. */
  predicate PartsAt(a: string, b: string, k: nat) {
    && k <= |a| && k < |b| && a[..k] == b[..k]
    && (k < |a| ==> a[k] < b[k])
  }

  /** A string comes before another if and only if it is a proper prefix of it or has the smaller character where
      they first differ. */
  lemma {:induction false} BelowExactly(a: string, b: string)
    ensures Below(a, b) <==> exists k: nat :: PartsAt(a, b, k)
  {
    if Below(a, b) {
      var k := PartsBelow(a, b);
    }
    if k: nat :| PartsAt(a, b, k) { BelowParts(a, b, k); }
  }

  lemma {:induction false} PartsBelow(a: string, b: string) returns (k: nat)
    requires Below(a, b)
    ensures PartsAt(a, b, k)
  {
    if a == "" || a[0] < b[0] {
      k := 0;
    } else {
      var m := PartsBelow(a[1..], b[1..]);
      k := m + 1;
      assert a[..k] == [a[0]] + a[1..][..m] && b[..k] == [b[0]] + b[1..][..m];
    }
  }

  lemma {:induction false} BelowParts(a: string, b: string, k: nat)
    requires PartsAt(a, b, k)
    ensures Below(a, b)
  {
    if k > 0 {
      assert a[..k][0] == b[..k][0] && a[..k][1..] == a[1..][..k - 1] && b[..k][1..] == b[1..][..k - 1];
      BelowParts(a[1..], b[1..], k - 1);
    }
  }

  // --- Objects as field sequences -------------------------------------------------------------

  predicate UniqueKeys<T(!new)>(s: seq<Field<T>>) {
    forall i, j :: 0 <= i < j < |s| ==> s[i].key != s[j].key
  }

  ghost predicate KeySorted<T(!new)>(s: seq<Field<T>>) {
    forall i, j :: 0 <= i < j < |s| ==> Below(s[i].key, s[j].key)
  }

  function Insert<T(!new)>(f: Field<T>, s: seq<Field<T>>): seq<Field<T>> {
    if s == [] then [f]
    else if Below(s[0].key, f.key) then [s[0]] + Insert(f, s[1..])
    else [f] + s
  }

  function Sort<T(!new)>(s: seq<Field<T>>): seq<Field<T>> {
    if s == [] then [] else Insert(s[0], Sort(s[1..]))
  }

  function MapValues<A(!new), B(!new)>(f: A -> B, s: seq<Field<A>>): seq<Field<B>> {
    if s == [] then [] else [Field(s[0].key, f(s[0].value))] + MapValues(f, s[1..])
  }

  lemma {:induction false} InsertElements<T(!new)>(f: Field<T>, s: seq<Field<T>>)
    ensures |Insert(f, s)| == |s| + 1
    ensures forall x :: x in Insert(f, s) <==> x == f || x in s
  {
    if s != [] && Below(s[0].key, f.key) {
      InsertElements(f, s[1..]);
      assert s == [s[0]] + s[1..];
    }
  }

  lemma {:induction false} SortElements<T(!new)>(s: seq<Field<T>>)
    ensures |Sort(s)| == |s|
    ensures forall x :: x in Sort(s) <==> x in s
  {
    if s != [] {
      SortElements(s[1..]);
      InsertElements(s[0], Sort(s[1..]));
      assert s == [s[0]] + s[1..];
    }
  }

  lemma {:induction false} InsertSorted<T(!new)>(f: Field<T>, s: seq<Field<T>>)
    requires KeySorted(s)
    requires forall i :: 0 <= i < |s| ==> s[i].key != f.key
    ensures KeySorted(Insert(f, s))
  {
    if s == [] {
    } else if Below(s[0].key, f.key) {
      var rest := Insert(f, s[1..]);
      InsertSorted(f, s[1..]);
      InsertElements(f, s[1..]);
      forall j | 0 <= j < |rest| ensures Below(s[0].key, rest[j].key) {
        var x := rest[j];
        assert x in rest;
        if x != f {
          var k :| 0 <= k < |s[1..]| && s[1..][k] == x;
          assert s[k + 1] == x;
        }
      }
    } else {
      BelowTotal(s[0].key, f.key);
      forall j | 0 <= j < |s| ensures Below(f.key, s[j].key) {
        if j > 0 { BelowTransitive(f.key, s[0].key, s[j].key); }
      }
    }
  }

  lemma {:induction false} SortSorted<T(!new)>(s: seq<Field<T>>)
    requires UniqueKeys(s)
    ensures KeySorted(Sort(s))
  {
    if s != [] {
      SortSorted(s[1..]);
      SortElements(s[1..]);
      var t := Sort(s[1..]);
      forall i | 0 <= i < |t| ensures t[i].key != s[0].key {
        var x := t[i];
        assert x in t;
        var k :| 0 <= k < |s[1..]| && s[1..][k] == x;
        assert s[k + 1] == x;
      }
      InsertSorted(s[0], t);
    }
  }

  lemma SortedIsUnique<T(!new)>(s: seq<Field<T>>)
    requires KeySorted(s)
    ensures UniqueKeys(s)
  {
    forall i, j | 0 <= i < j < |s| ensures s[i].key != s[j].key {
      BelowIrreflexive(s[i].key);
    }
  }

  lemma {:induction false} SortOfSorted<T(!new)>(s: seq<Field<T>>)
    requires KeySorted(s)
    ensures Sort(s) == s
  {
    if |s| > 1 {
      SortOfSorted(s[1..]);
      assert Below(s[0].key, s[1].key);
      BelowAsymmetric(s[0].key, s[1].key);
      assert s == [s[0]] + s[1..];
    } else if |s| == 1 {
      assert s == [s[0]];
    }
  }

  /** Strictly sorted field lists holding the same fields are the same list. */
  lemma {:induction false} SortedDetermined<T(!new)>(s: seq<Field<T>>, t: seq<Field<T>>)
    requires KeySorted(s) && KeySorted(t) && |s| == |t|
    requires forall x :: x in s <==> x in t
    ensures s == t
  {
    if s != [] {
      assert s[0] in t && t[0] in t && t[0] in s;
      SortedIsUnique(s);
      SortedIsUnique(t);
      HeadIsLeast(s, t);
      HeadIsLeast(t, s);
      if Below(s[0].key, t[0].key) { BelowAsymmetric(s[0].key, t[0].key); }
      forall x ensures x in s[1..] <==> x in t[1..] {
        TailMembers(s, t, x);
        TailMembers(t, s, x);
      }
      SortedDetermined(s[1..], t[1..]);
      assert s == [s[0]] + s[1..] && t == [t[0]] + t[1..];
    }
  }

  lemma HeadIsLeast<T(!new)>(s: seq<Field<T>>, t: seq<Field<T>>)
    requires KeySorted(s) && s != [] && t != [] && t[0] in s
    ensures s[0] == t[0] || Below(s[0].key, t[0].key)
  {
    var k :| 0 <= k < |s| && s[k] == t[0];
  }

  lemma TailMembers<T(!new)>(s: seq<Field<T>>, t: seq<Field<T>>, x: Field<T>)
    requires UniqueKeys(s) && s != [] && t != [] && s[0] == t[0]
    requires forall y :: y in s <==> y in t
    ensures x in s[1..] ==> x in t[1..]
  {
    if x in s[1..] {
      var k :| 0 <= k < |s[1..]| && s[1..][k] == x;
      assert s[k + 1] == x && x.key != s[0].key;
      assert x in t;
      var m :| 0 <= m < |t| && t[m] == x;
      assert m > 0 && t[1..][m - 1] == x;
    }
  }

  lemma {:induction false} SortMapsValues<A(!new), B(!new)>(f: A -> B, s: seq<Field<A>>)
    ensures Sort(MapValues(f, s)) == MapValues(f, Sort(s))
  {
    if s != [] {
      SortMapsValues(f, s[1..]);
      InsertMapsValues(f, s[0], Sort(s[1..]));
    }
  }

  lemma {:induction false} InsertMapsValues<A(!new), B(!new)>(f: A -> B, x: Field<A>, s: seq<Field<A>>)
    ensures Insert(Field(x.key, f(x.value)), MapValues(f, s)) == MapValues(f, Insert(x, s))
  {
    if s != [] && Below(s[0].key, x.key) {
      InsertMapsValues(f, x, s[1..]);
      assert Insert(x, s) == [s[0]] + Insert(x, s[1..]);
      assert Insert(x, s)[1..] == Insert(x, s[1..]);
    } else {
      assert Insert(x, s) == [x] + s;
      assert ([x] + s)[1..] == s;
    }
  }
}
