// List helpers used by every diff the controllers compute (internal/util/slices.go).
module Slices {

  ghost predicate NoRepeats<T>(x: seq<T>) {
    forall i, j :: 0 <= i < j < |x| ==> x[i] != x[j]
  }

  /** x in the same order, without the members of s. */
  function Drop<T(==)>(x: seq<T>, s: set<T>): seq<T> {
    if x == [] then [] else (if x[0] in s then [] else [x[0]]) + Drop(x[1..], s)
  }

  lemma {:induction false} DropConcat<T>(x: seq<T>, y: seq<T>, s: set<T>)
    ensures Drop(x + y, s) == Drop(x, s) + Drop(y, s)
  {
    if x == [] {
      assert x + y == y;
    } else {
      assert (x + y)[1..] == x[1..] + y;
      DropConcat(x[1..], y, s);
    }
  }

  lemma {:induction false} DropMembers<T>(x: seq<T>, s: set<T>, v: T)
    ensures v in Drop(x, s) <==> v in x && v !in s
  {
    if x != [] {
      DropMembers(x[1..], s, v);
    }
  }

  lemma {:induction false} DropTwice<T>(x: seq<T>, s: set<T>, t: set<T>)
    ensures Drop(Drop(x, s), t) == Drop(x, s + t)
  {
    if x != [] {
      DropTwice(x[1..], s, t);
      DropConcat(if x[0] in s then [] else [x[0]], Drop(x[1..], s), t);
    }
  }

  lemma {:induction false} DropNothing<T>(x: seq<T>, s: set<T>)
    requires forall v :: v in s ==> v !in x
    ensures Drop(x, s) == x
  {
    if x != [] {
      assert forall v :: v in x[1..] ==> v in x;
      DropNothing(x[1..], s);
    }
  }

  lemma {:induction false} DropKeepsDistinct<T>(x: seq<T>, s: set<T>)
    requires NoRepeats(x)
    ensures NoRepeats(Drop(x, s))
  {
    if x != [] {
      DropKeepsDistinct(x[1..], s);
      DropMembers(x[1..], s, x[0]);
      assert x[0] !in x[1..];
    }
  }

  lemma {:induction false} DropShrinks<T>(x: seq<T>, s: set<T>)
    ensures |Drop(x, s)| <= |x|
    ensures |Drop(x, s)| == |x| ==> Drop(x, s) == x
  {
    if x != [] {
      DropShrinks(x[1..], s);
    }
  }

  /** util.Without. */
  method Without<T(==)>(x: seq<T>, y: T) returns (ret: seq<T>)
    ensures ret == Drop(x, {y})
  {
    ret := [];
    for i := 0 to |x|
      invariant ret == Drop(x[..i], {y})
    {
      assert x[..i + 1] == x[..i] + [x[i]];
      DropConcat(x[..i], [x[i]], {y});
      if x[i] != y {
        ret := ret + [x[i]];
      }
    }
    assert x[..|x|] == x;
  }

  /** What util.Equivalent tests: equal lengths, and every member of y occurs in x. */
  predicate Covers<T(==)>(x: seq<T>, y: seq<T>) {
    |x| == |y| && forall v :: v in y ==> v in x
  }

  /** util.Equivalent. */
  method Equivalent<T(==)>(x: seq<T>, y: seq<T>) returns (r: bool)
    ensures r <==> Covers(x, y)
  {
    if |x| != |y| {
      return false;
    }
    var mp := {};
    for i := 0 to |x|
      invariant forall v :: v in mp <==> v in x[..i]
    {
      mp := mp + {x[i]};
    }
    for i := 0 to |y|
      invariant forall v :: v in y[..i] ==> v in x
    {
      if y[i] !in mp {
        assert y[i] in y && y[i] !in x[..|x|];
        return false;
      }
    }
    return true;
  }

  lemma {:induction false} DistinctIsSmallest<T>(x: seq<T>, y: seq<T>)
    requires NoRepeats(y) && |x| == |y| && forall v :: v in y ==> v in x
    ensures multiset(x) == multiset(y)
  {
    // y's members each occur at least once in x, so y is contained in x; equal sizes close the gap.
    DistinctCounts(y);
    forall v ensures multiset(y)[v] <= multiset(x)[v] {
      if v in y {
        assert v in multiset(x);
      }
    }
    assert multiset(x) == multiset(y) + (multiset(x) - multiset(y));
    assert |multiset(x)| == |x| && |multiset(y)| == |y|;
    assert |multiset(x) - multiset(y)| == 0;
  }

  lemma {:induction false} DistinctCounts<T>(y: seq<T>)
    requires NoRepeats(y)
    ensures forall v :: multiset(y)[v] <= 1
  {
    if y != [] {
      DistinctCounts(y[1..]);
      assert y == [y[0]] + y[1..];
      assert y[0] !in y[1..];
    }
  }

  lemma PermutationCovers<T>(x: seq<T>, y: seq<T>)
    requires multiset(x) == multiset(y)
    ensures Covers(x, y)
  {
    assert |multiset(x)| == |x| && |multiset(y)| == |y|;
    forall v | v in y ensures v in x {
      assert v in multiset(y);
    }
  }

  lemma RepeatFoolsCovers(y: seq<int>, i: nat, j: nat) returns (x: seq<int>)
    requires i < j < |y| && y[i] == y[j]
    ensures Covers(x, y) && multiset(x) != multiset(y)
  {
    x := y[j := y[i] + 1];
    forall v | v in y ensures v in x {
      var k :| 0 <= k < |y| && y[k] == v;
      assert x[if k == j then i else k] == v;
    }
    assert multiset(x)[y[i]] + 1 == multiset(y)[y[i]] by {
      assert y == y[..j] + [y[j]] + y[j + 1..];
      assert x == y[..j] + [y[i] + 1] + y[j + 1..];
    }
  }

  /** The exact domain on which Equivalent means "equal when sorted": a second list without repeats. */
  lemma EquivalentIsPermutation(y: seq<int>)
    ensures NoRepeats(y) <==> forall x: seq<int> :: Covers(x, y) <==> multiset(x) == multiset(y)
  {
    if NoRepeats(y) {
      forall x: seq<int> ensures Covers(x, y) <==> multiset(x) == multiset(y) {
        if Covers(x, y) {
          DistinctIsSmallest(x, y);
        }
        if multiset(x) == multiset(y) {
          PermutationCovers(x, y);
        }
      }
    } else {
      var i, j :| 0 <= i < j < |y| && y[i] == y[j];
      var x := RepeatFoolsCovers(y, i, j);
    }
  }

  // ----- strings -----

  /** unicode.IsSpace, which strings.TrimSpace uses. */
  predicate Space(c: char) {
    || c in {'\t', '\n', '\U{000B}', '\U{000C}', '\r', ' ', '\U{0085}', '\U{00A0}', '\U{1680}'}
    || '\U{2000}' <= c <= '\U{200A}'
    || c in {'\U{2028}', '\U{2029}', '\U{202F}', '\U{205F}', '\U{3000}'}
  }

  predicate Trimmed(s: string) {
    s == "" || (!Space(s[0]) && !Space(s[|s| - 1]))
  }

  /** strings.TrimSpace. */
  function Trim(s: string): (r: string)
    ensures Trimmed(r)
    ensures Trimmed(s) ==> r == s
  {
    if s != "" && Space(s[0]) then Trim(s[1..])
    else if s != "" && Space(s[|s| - 1]) then Trim(s[..|s| - 1])
    else s
  }

  /** Trimming takes away a prefix and a suffix of blanks and nothing else. */
  lemma {:induction false} TrimIsMiddle(s: string) returns (i: nat, j: nat)
    ensures i <= j <= |s| && Trim(s) == s[i..j]
    ensures forall k :: 0 <= k < i || j <= k < |s| ==> Space(s[k])
  {
    if s != "" && Space(s[0]) {
      var a, b := TrimIsMiddle(s[1..]);
      i, j := a + 1, b + 1;
      assert s[1..][a..b] == s[i..j];
      forall k | 0 <= k < i || j <= k < |s| ensures Space(s[k]) {
        assert k > 0 ==> s[k] == s[1..][k - 1];
      }
    } else if s != "" && Space(s[|s| - 1]) {
      var n := |s| - 1;
      i, j := TrimIsMiddle(s[..n]);
      assert s[..n][i..j] == s[i..j];
      forall k | 0 <= k < i || j <= k < |s| ensures Space(s[k]) {
        assert k < n ==> s[k] == s[..n][k];
      }
    } else {
      i, j := 0, |s|;
    }
  }

  /** strings.Split for a one-character separator, the only kind the callers pass. */
  function Split(s: string, sep: char): (r: seq<string>)
    ensures |r| > 0
    ensures forall i :: 0 <= i < |r| ==> sep !in r[i]
  {
    if s == "" then [""]
    else
      var r := Split(s[1..], sep);
      if s[0] == sep then [""] + r else [[s[0]] + r[0]] + r[1..]
  }

  function Join(parts: seq<string>, sep: char): string {
    if parts == [] then ""
    else if |parts| == 1 then parts[0]
    else parts[0] + [sep] + Join(parts[1..], sep)
  }

  lemma {:induction false} SplitSeparatorFree(s: string, sep: char)
    requires sep !in s
    ensures Split(s, sep) == [s]
  {
    if s != "" {
      assert forall c :: c in s[1..] ==> c in s;
      SplitSeparatorFree(s[1..], sep);
      assert s[0] in s;
      assert s == [s[0]] + s[1..];
    }
  }

  lemma {:induction false} SplitAtSeparator(a: string, b: string, sep: char)
    requires sep !in a
    ensures Split(a + [sep] + b, sep) == [a] + Split(b, sep)
  {
    if a == "" {
      assert a + [sep] + b == [sep] + b;
      assert ([sep] + b)[1..] == b;
    } else {
      assert forall c :: c in a[1..] ==> c in a;
      assert (a + [sep] + b)[1..] == a[1..] + [sep] + b;
      SplitAtSeparator(a[1..], b, sep);
      assert a[0] in a && (a + [sep] + b)[0] == a[0];
      assert a == [a[0]] + a[1..];
    }
  }

  lemma {:induction false} SplitUndoesJoin(parts: seq<string>, sep: char)
    requires |parts| > 0 && forall i :: 0 <= i < |parts| ==> sep !in parts[i]
    ensures Split(Join(parts, sep), sep) == parts
  {
    if |parts| == 1 {
      SplitSeparatorFree(parts[0], sep);
    } else {
      SplitUndoesJoin(parts[1..], sep);
      SplitAtSeparator(parts[0], Join(parts[1..], sep), sep);
    }
  }

  function TrimAll(parts: seq<string>): (r: seq<string>)
    ensures |r| == |parts|
    ensures forall i :: 0 <= i < |parts| ==> r[i] == Trim(parts[i])
  {
    if parts == [] then [] else [Trim(parts[0])] + TrimAll(parts[1..])
  }

  function Names(str: string, sep: char): seq<string> {
    if str == "" then [] else TrimAll(Split(str, sep))
  }

  /** util.SplitTrim. */
  method SplitTrim(str: string, sep: char) returns (ret: seq<string>)
    ensures ret == Names(str, sep)
  {
    if |str| == 0 {
      return [];
    }
    var sp := Split(str, sep);
    ret := [];
    for i := 0 to |sp|
      invariant ret == TrimAll(sp)[..i]
    {
      ret := ret + [Trim(sp[i])];
    }
  }

  lemma NamesOfOne(name: string, sep: char)
    requires name != "" && sep !in name && Trimmed(name)
    ensures Names(name, sep) == [name]
  {
    SplitSeparatorFree(name, sep);
  }

  /** SplitTrim undoes joining on every non-empty list of trimmed, separator-free names but [""]. */
  lemma SplitTrimUndoesJoin(parts: seq<string>, sep: char)
    requires |parts| > 0
    requires forall i :: 0 <= i < |parts| ==> sep !in parts[i] && Trimmed(parts[i])
    ensures Names(Join(parts, sep), sep) == parts <==> parts != [""]
  {
    SplitUndoesJoin(parts, sep);
    if |parts| > 1 {
      assert sep in Join(parts, sep);
    }
  }
}
