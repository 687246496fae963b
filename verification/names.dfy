// Object names the controllers print into other objects and later take apart again.
module KeyNames {
  import opened Slices

  /** types.NamespacedName. */
  datatype Key = Key(ns: string, name: string)

  function Print(k: Key): string {
    k.ns + "/" + k.name
  }

  /** What getResources reads back from a managed-list entry; an entry without '/' makes it panic. */
  function Parse(s: string): Key
    requires |Split(s, '/')| > 1
  {
    Key(Split(s, '/')[0], Split(s, '/')[1])
  }

  lemma ParseUndoesPrint(k: Key)
    requires '/' !in k.ns && '/' !in k.name
    ensures |Split(Print(k), '/')| == 2 && Parse(Print(k)) == k
  {
    SplitAtSeparator(k.ns, k.name, '/');
    SplitSeparatorFree(k.name, '/');
    assert Print(k) == k.ns + ['/'] + k.name;
  }

  /** strings.ReplaceAll(s, pat, ""). */
  function Strip(s: string, pat: string): string
    requires pat != ""
  {
    if |s| < |pat| then s
    else if s[..|pat|] == pat then Strip(s[|pat|..], pat)
    else [s[0]] + Strip(s[1..], pat)
  }

  /** strings.ReplaceAll(s, "/", "-"). */
  function Dashed(s: string): string {
    if s == "" then "" else [if s[0] == '/' then '-' else s[0]] + Dashed(s[1..])
  }

  lemma {:induction false} DashedConcat(a: string, b: string)
    ensures Dashed(a + b) == Dashed(a) + Dashed(b)
  {
    if a == "" {
      assert a + b == b;
    } else {
      assert (a + b)[1..] == a[1..] + b;
      DashedConcat(a[1..], b);
    }
  }

  lemma {:induction false} DashedPlain(a: string)
    requires '/' !in a
    ensures Dashed(a) == a
  {
    if a != "" {
      assert forall c :: c in a[1..] ==> c in a;
      DashedPlain(a[1..]);
    }
  }

  /** The object name of the policy generated for resource k (handlePolicyCreate). */
  function GeneratedName(policy: string, k: Key): string {
    policy + "-" + k.ns + "-" + k.name
  }

  /** The suffix mapResources strips, rebuilt from the generated-by annotation. */
  function GeneratedSuffix(generatedBy: string): string {
    "-" + Dashed(generatedBy)
  }

  predicate OccursAt(s: string, pat: string, i: nat) {
    i + |pat| <= |s| && s[i..i + |pat|] == pat
  }

  lemma {:induction false} OccursInTail(s: string, pat: string, j: nat)
    requires s != ""
    ensures OccursAt(s[1..], pat, j) <==> OccursAt(s, pat, j + 1)
  {
    if j + |pat| <= |s[1..]| {
      assert s[1..][j..j + |pat|] == s[j + 1..j + 1 + |pat|];
    }
  }

  ghost predicate FirstAt(s: string, pat: string, i: nat) {
    OccursAt(s, pat, i) && forall j: nat :: j < i ==> !OccursAt(s, pat, j)
  }

  lemma FirstInTail(s: string, pat: string, i: nat)
    requires s != "" && i > 0 && FirstAt(s, pat, i)
    ensures FirstAt(s[1..], pat, i - 1)
    ensures !OccursAt(s, pat, 0)
  {
    OccursInTail(s, pat, i - 1);
    forall j: nat | j < i - 1 ensures !OccursAt(s[1..], pat, j) {
      OccursInTail(s, pat, j);
    }
  }

  lemma StripSkips(s: string, pat: string)
    requires pat != "" && |pat| <= |s| && !OccursAt(s, pat, 0)
    ensures Strip(s, pat) == [s[0]] + Strip(s[1..], pat)
  {
    assert s[0..|pat|] == s[..|pat|];
  }

  lemma {:induction false} StripAtFirst(s: string, pat: string, i: nat)
    requires pat != "" && FirstAt(s, pat, i)
    ensures i + |pat| <= |s| && Strip(s, pat) == s[..i] + Strip(s[i + |pat|..], pat)
  {
    if i == 0 {
      assert s[0..|pat|] == s[..|pat|];
    } else {
      var rest := s[1..];
      FirstInTail(s, pat, i);
      StripSkips(s, pat);
      StripAtFirst(rest, pat, i - 1);
      assert rest[i - 1 + |pat|..] == s[i + |pat|..];
      PrefixOfTail(s, i, Strip(s[i + |pat|..], pat));
    }
  }

  lemma PrefixOfTail(s: string, i: nat, t: string)
    requires 0 < i <= |s|
    ensures [s[0]] + (s[1..][..i - 1] + t) == s[..i] + t
  {
    assert [s[0]] + s[1..][..i - 1] == s[..i];
  }

  lemma {:induction false} StripRemovesSuffix(x: string, pat: string)
    requires pat != ""
    ensures |Strip(x + pat, pat)| <= |x|
    decreases |x|
  {
    var s := x + pat;
    if s[..|pat|] == pat {
      if |x| >= |pat| {
        assert s[|pat|..] == x[|pat|..] + pat;
        StripRemovesSuffix(x[|pat|..], pat);
      } else {
        assert |s[|pat|..]| == |x|;
        assert Strip(s[|pat|..], pat) == s[|pat|..];
      }
    } else {
      assert x != "" by {
        assert x == "" ==> s == pat;
      }
      assert s[1..] == x[1..] + pat;
      StripRemovesSuffix(x[1..], pat);
    }
  }

  /** Stripping recovers the policy name exactly when the first occurrence of the suffix either is the
      appended one, or straddles the join and leaves behind the very characters it took from the name. */
  lemma StripRecovers(policy: string, suffix: string, i: nat)
    requires suffix != "" && FirstAt(policy + suffix, suffix, i)
    ensures Strip(policy + suffix, suffix) == policy <==>
            i <= |policy| && |policy| < i + |suffix| && (policy + suffix)[i + |suffix|..] == policy[i..]
  {
    var s := policy + suffix;
    StripAtFirst(s, suffix, i);
    assert i <= |policy|;
    var rest := s[i + |suffix|..];
    if i + |suffix| <= |policy| {
      assert rest == policy[i + |suffix|..] + suffix;
      StripRemovesSuffix(policy[i + |suffix|..], suffix);
      assert |Strip(s, suffix)| < |policy|;
    } else {
      assert |rest| < |suffix|;
      assert s[..i] == policy[..i];
      assert policy == policy[..i] + policy[i..];
    }
  }

  lemma GeneratedIsSuffixed(policy: string, k: Key)
    requires '/' !in k.ns && '/' !in k.name
    ensures GeneratedName(policy, k) == policy + GeneratedSuffix(Print(k))
  {
    DashedKey(k);
    assert GeneratedName(policy, k) == policy + ("-" + (k.ns + "-" + k.name));
  }

  lemma DashedKey(k: Key)
    requires '/' !in k.ns && '/' !in k.name
    ensures Dashed(Print(k)) == k.ns + "-" + k.name
  {
    DashedConcat(k.ns + "/", k.name);
    DashedConcat(k.ns, "/");
    DashedPlain(k.ns);
    DashedPlain(k.name);
    assert "/"[1..] == "";
  }

  /** The round trip mapResources relies on: no other occurrence of the suffix, and the name comes back. */
  lemma GeneratedNameRoundTrip(policy: string, k: Key)
    requires '/' !in k.ns && '/' !in k.name
    requires forall j: nat :: j < |policy| ==> !OccursAt(GeneratedName(policy, k), GeneratedSuffix(Print(k)), j)
    ensures Strip(GeneratedName(policy, k), GeneratedSuffix(Print(k))) == policy
  {
    GeneratedIsSuffixed(policy, k);
    var suffix := GeneratedSuffix(Print(k));
    assert (policy + suffix)[|policy|..|policy| + |suffix|] == suffix;
    assert (policy + suffix)[|policy| + |suffix|..] == policy[|policy|..];
    StripRecovers(policy, suffix, |policy|);
  }

  /** A policy name that itself contains the suffix never comes back. */
  lemma GeneratedNameLost(policy: string, k: Key, j: nat)
    requires '/' !in k.ns && '/' !in k.name
    requires OccursAt(policy, GeneratedSuffix(Print(k)), j)
    ensures Strip(GeneratedName(policy, k), GeneratedSuffix(Print(k))) != policy
  {
    GeneratedIsSuffixed(policy, k);
    var suffix := GeneratedSuffix(Print(k));
    var s := policy + suffix;
    assert s[j..j + |suffix|] == policy[j..j + |suffix|];
    var i := FirstOccurrence(s, suffix, j);
    StripRecovers(policy, suffix, i);
  }

  lemma {:induction false} FirstOccurrence(s: string, pat: string, j: nat) returns (i: nat)
    requires OccursAt(s, pat, j)
    ensures i <= j && FirstAt(s, pat, i)
  {
    if m: nat :| m < j && OccursAt(s, pat, m) {
      i := FirstOccurrence(s, pat, m);
    } else {
      i := j;
    }
  }
}
