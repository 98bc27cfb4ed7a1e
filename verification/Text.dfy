/** Option, the one failure-compatible datatype the model needs. */
module Wrappers {
  datatype Option<+T> = None | Some(value: T)
}

/** The string helpers of the Go code: white space, safe path components, and the
    byte order used by `sort.Strings`.  A Go string is a sequence of characters here. */
module Text {

  // Unicode White_Space, the set strings.TrimSpace removes.
  predicate IsSpace(c: char) {
    var n := c as int;
    9 <= n <= 13 || n == 32 || n == 0x85 || n == 0xA0 || n == 0x1680 || 0x2000 <= n <= 0x200A ||
    n == 0x2028 || n == 0x2029 || n == 0x202F || n == 0x205F || n == 0x3000
  }

  // s[i..j] is s without its leading and trailing white space.
  ghost predicate TrimBounds(s: string, i: nat, j: nat) {
    i <= j <= |s| && (forall k :: 0 <= k < i ==> IsSpace(s[k])) && (forall k :: j <= k < |s| ==> IsSpace(s[k])) &&
    (i < j ==> !IsSpace(s[i]) && !IsSpace(s[j - 1]))
  }

  lemma TrimBoundsExist(s: string) returns (i: nat, j: nat)
    ensures TrimBounds(s, i, j)
  {
    i, j := 0, |s|;
    while i < |s| && IsSpace(s[i])
      invariant i <= |s| && forall k :: 0 <= k < i ==> IsSpace(s[k])
    {
      i := i + 1;
    }
    while j > i && IsSpace(s[j - 1])
      invariant i <= j <= |s| && forall k :: j <= k < |s| ==> IsSpace(s[k])
    {
      j := j - 1;
    }
  }

  ghost function TrimRange(s: string): (r: (nat, nat))
    ensures TrimBounds(s, r.0, r.1)
  {
    assert exists r: (nat, nat) :: TrimBounds(s, r.0, r.1) by {
      var i, j := TrimBoundsExist(s);
      assert TrimBounds(s, (i, j).0, (i, j).1);
    }
    var r: (nat, nat) :| TrimBounds(s, r.0, r.1);
    r
  }

  ghost function TrimSpace(s: string): string {
    s[TrimRange(s).0..TrimRange(s).1]
  }

  lemma TrimSpaceIs(s: string, i: nat, j: nat)
    requires TrimBounds(s, i, j)
    ensures TrimSpace(s) == s[i..j]
  {
    var (a, b) := TrimRange(s);
    if a < b {
      assert IsSpace(s[a]) == false && IsSpace(s[b - 1]) == false;
      assert i <= a && b <= j;
      assert IsSpace(s[i]) == false && IsSpace(s[j - 1]) == false;
    } else {
      assert forall k :: 0 <= k < |s| ==> IsSpace(s[k]);
    }
  }

  // Trimming changes a string exactly when it starts or ends with white space.
  lemma TrimSpaceFixed(s: string)
    ensures TrimSpace(s) == s <==> s == [] || (!IsSpace(s[0]) && !IsSpace(s[|s| - 1]))
  {
    var i, j := TrimBoundsExist(s);
    TrimSpaceIs(s, i, j);
    if s != [] && !IsSpace(s[0]) && !IsSpace(s[|s| - 1]) {
      assert s[0..|s|] == s;
      TrimSpaceIs(s, 0, |s|);
    }
  }

  method Trim(s: string) returns (r: string)
    ensures r == TrimSpace(s)
  {
    var i, j := 0, |s|;
    while i < |s| && IsSpace(s[i])
      invariant 0 <= i <= |s| && forall k :: 0 <= k < i ==> IsSpace(s[k])
    {
      i := i + 1;
    }
    while j > i && IsSpace(s[j - 1])
      invariant i <= j <= |s| && forall k :: j <= k < |s| ==> IsSpace(s[k])
    {
      j := j - 1;
    }
    TrimSpaceIs(s, i, j);
    r := s[i..j];
  }

  predicate SafeChar(first: bool, c: char) {
    'a' <= c <= 'z' || 'A' <= c <= 'Z' || '0' <= c <= '9' || (!first && (c == '.' || c == '_' || c == '-'))
  }

  // One safe etcd path component.
  predicate SafeName(value: string) {
    0 < |value| <= 128 && (forall i :: 0 <= i < |value| ==> SafeChar(i == 0, value[i])) &&
    value != "." && value != ".."
  }

  lemma SafeNameIsTrimmed(value: string)
    requires SafeName(value)
    ensures TrimSpace(value) == value
    ensures '/' !in value && '\0' !in value
  {
    assert SafeChar(true, value[0]) && SafeChar(|value| == 1, value[|value| - 1]);
    TrimSpaceFixed(value);
  }

  // The order of sort.Strings.
  predicate Leq(a: string, b: string) {
    if a == [] then true
    else if b == [] then false
    else if a[0] != b[0] then a[0] < b[0]
    else Leq(a[1..], b[1..])
  }

  lemma {:induction false} LeqTotal(a: string, b: string)
    ensures Leq(a, b) || Leq(b, a)
    ensures Leq(a, b) && Leq(b, a) ==> a == b
  {
    if a != [] && b != [] && a[0] == b[0] {
      LeqTotal(a[1..], b[1..]);
      if a[1..] == b[1..] {
        assert a == [a[0]] + a[1..] && b == [b[0]] + b[1..];
      }
    }
  }

  lemma {:induction false} LeqTransitive(a: string, b: string, c: string)
    requires Leq(a, b) && Leq(b, c)
    ensures Leq(a, c)
  {
    if a != [] && b != [] && c != [] && a[0] == b[0] == c[0] {
      LeqTransitive(a[1..], b[1..], c[1..]);
    }
  }

  /** The order of strings by their characters: a prefix comes first, and otherwise the first difference decides. */
  lemma {:induction false} LeqIs(a: string, b: string)
    ensures Leq(a, b) <==>
      a <= b || exists k :: 0 <= k < |a| && k < |b| && a[..k] == b[..k] && a[k] < b[k]
  {
    if a != [] && b != [] {
      if a[0] != b[0] {
        assert a[..0] == b[..0];
        forall k | 0 < k < |a| && k < |b| ensures a[..k] != b[..k] { assert a[..k][0] != b[..k][0]; }
      } else {
        LeqIs(a[1..], b[1..]);
        LeqRest(a, b);
      }
    }
  }

  lemma LeqRest(a: string, b: string)
    requires a != [] && b != [] && a[0] == b[0]
    ensures a <= b <==> a[1..] <= b[1..]
    ensures (exists k :: 0 <= k < |a| && k < |b| && a[..k] == b[..k] && a[k] < b[k]) <==>
      exists k :: 0 <= k < |a[1..]| && k < |b[1..]| && a[1..][..k] == b[1..][..k] && a[1..][k] < b[1..][k]
  {
    assert a == [a[0]] + a[1..] && b == [b[0]] + b[1..];
    if k :| 0 <= k < |a| && k < |b| && a[..k] == b[..k] && a[k] < b[k] {
      assert a[1..][..k - 1] == a[..k][1..] && b[1..][..k - 1] == b[..k][1..];
      assert a[1..][k - 1] < b[1..][k - 1];
    }
    if k :| 0 <= k < |a[1..]| && k < |b[1..]| && a[1..][..k] == b[1..][..k] && a[1..][k] < b[1..][k] {
      assert a[..k + 1] == [a[0]] + a[1..][..k] && b[..k + 1] == [b[0]] + b[1..][..k];
      assert a[k + 1] < b[k + 1];
    }
  }

  ghost predicate IsMin(m: string, s: set<string>) {
    m in s && forall x :: x in s ==> Leq(m, x)
  }

  ghost function MinOf(s: set<string>): (m: string)
    requires s != {}
    ensures m in s
  {
    var x :| x in s;
    if s == {x} then x
    else
      var m := MinOf(s - {x});
      if Leq(x, m) then x else m
  }

  lemma {:induction false} MinOfIsMin(s: set<string>)
    requires s != {}
    ensures IsMin(MinOf(s), s)
  {
    var x :| x in s && MinOf(s) == (if s == {x} then x else if Leq(x, MinOf(s - {x})) then x else MinOf(s - {x}));
    LeqTotal(x, x);
    if s != {x} {
      var m := MinOf(s - {x});
      MinOfIsMin(s - {x});
      LeqTotal(x, m);
      if Leq(x, m) {
        forall y | y in s ensures Leq(x, y) {
          if y != x { LeqTransitive(x, m, y); }
        }
      }
    }
  }

  // The elements of a set in the order of sort.Strings.
  ghost function Sorted(s: set<string>): (r: seq<string>)
    ensures forall x :: x in r <==> x in s
    ensures |r| == |s|
    decreases s
  {
    if s == {} then [] else
      var m := MinOf(s);
      var rest := Sorted(s - {m});
      assert forall x :: x in [m] + rest <==> x == m || x in rest;
      [m] + rest
  }

  // A sequence lists a set, each element once.
  ghost predicate Enumerates<T(!new)>(list: seq<T>, s: set<T>) {
    (forall x :: x in list <==> x in s) && (forall i, j :: 0 <= i < j < |list| ==> list[i] != list[j])
  }

  method Smallest(s: set<string>) returns (m: string)
    requires s != {}
    ensures m == MinOf(s)
  {
    m :| m in s;
    var scan := s - {m};
    LeqTotal(m, m);
    while scan != {}
      invariant scan <= s && m in s
      invariant forall x :: x in s && x !in scan ==> Leq(m, x)
      decreases scan
    {
      var x :| x in scan;
      LeqTotal(x, m);
      LeqTotal(x, x);
      if Leq(x, m) {
        forall y | y in s && y !in scan ensures Leq(x, y) { LeqTransitive(x, m, y); }
        m := x;
      }
      scan := scan - {x};
    }
    MinOfIsMin(s);
    LeqTotal(m, MinOf(s));
  }

  // Sorting a set of names, as sort.Strings does.
  method SortNames(s: set<string>) returns (r: seq<string>)
    ensures r == Sorted(s)
  {
    var rest := s;
    r := [];
    while rest != {}
      invariant r + Sorted(rest) == Sorted(s)
      decreases rest
    {
      var m := Smallest(rest);
      assert r + ([m] + Sorted(rest - {m})) == (r + [m]) + Sorted(rest - {m});
      r := r + [m];
      rest := rest - {m};
    }
  }

  lemma {:induction false} SortedDistinct(s: set<string>)
    ensures forall i, j :: 0 <= i < j < |Sorted(s)| ==> Sorted(s)[i] != Sorted(s)[j]
    decreases s
  {
    if s != {} {
      var m := MinOf(s);
      SortedDistinct(s - {m});
      var rest := Sorted(s - {m});
      assert forall j :: 0 <= j < |rest| ==> rest[j] in rest;
    }
  }

  lemma {:induction false} SortedOrdered(s: set<string>, i: nat, j: nat)
    requires i < j < |Sorted(s)|
    ensures Leq(Sorted(s)[i], Sorted(s)[j])
    decreases s
  {
    var m := MinOf(s);
    var rest := Sorted(s - {m});
    if i == 0 {
      MinOfIsMin(s);
      assert rest[j - 1] in rest;
    } else {
      SortedOrdered(s - {m}, i - 1, j - 1);
    }
  }
}
