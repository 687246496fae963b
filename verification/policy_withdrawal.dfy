// The policy part of OZResource deletion: the resource leaves the managed lists its status names
// (internal/controller/ozresource_controller.go:590-608).
module PolicyWithdrawal {
  import opened KeyNames
  import opened PolicyObjects
  import opened Registration
  import opened Slices
  import opened Tables

  /** Cluster policies, and whether an error ended the pass. */
  datatype Withdrawing = Withdrawing(policies: map<string, Policy>, err: bool)

  function AfterWithdrawals(key: Key, list: seq<string>, down: set<Call>, n: nat, s: Withdrawing): Withdrawing
    requires n <= |list|
  {
    if n == 0 then s
    else
      var t := AfterWithdrawals(key, list, down, n - 1, s);
      var name := list[n - 1];
      if t.err then t
      else if GetRemoved(n - 1) in down then t.(err := true)
      else if name !in t.policies || key !in t.policies[name].managed then t
      else if WriteRemoved(n - 1) in down then t.(err := true)
      else t.(policies := t.policies[name := Unlisted(key, t.policies[name])])
  }

  function Unlisted(key: Key, p: Policy): Policy {
    p.(managed := Drop(p.managed, {key}))
  }

  /** The walk over the policy names in the status; they are taken as object names, without the mapping. */
  method Withdraw(key: Key, status: ResourceStatus, down: set<Call>, policies: map<string, Policy>)
    returns (left: map<string, Policy>, err: bool)
    ensures var list := StatusList(status);
            Withdrawing(left, err) == AfterWithdrawals(key, list, down, |list|, Withdrawing(policies, false))
  {
    left := policies;
    if status.policyName == None {
      return left, false;
    }
    var list := SplitTrim(status.policyName.value, ',');
    for i := 0 to |list|
      invariant Withdrawing(left, false) == AfterWithdrawals(key, list, down, i, Withdrawing(policies, false))
    {
      if GetRemoved(i) in down {
        WithdrawalsStop(key, list, down, i + 1, Withdrawing(policies, false));
        return left, true;
      }
      if list[i] in left && key in left[list[i]].managed {
        var managed := Without(left[list[i]].managed, key);
        if WriteRemoved(i) in down {
          WithdrawalsStop(key, list, down, i + 1, Withdrawing(policies, false));
          return left, true;
        }
        left := left[list[i] := left[list[i]].(managed := managed)];
      }
    }
    return left, false;
  }

  lemma {:induction false} WithdrawalsStop(key: Key, list: seq<string>, down: set<Call>, n: nat, s: Withdrawing)
    requires n <= |list| && AfterWithdrawals(key, list, down, n, s).err
    ensures AfterWithdrawals(key, list, down, |list|, s) == AfterWithdrawals(key, list, down, n, s)
    decreases |list| - n
  {
    if n < |list| {
      WithdrawalsStop(key, list, down, n + 1, s);
    }
  }

  /** What the walk has done after its first n policies. */
  ghost predicate Withdrawn(key: Key, list: seq<string>, n: nat, s: Withdrawing, t: Withdrawing)
    requires n <= |list|
  {
    && t.policies.Keys == s.policies.Keys
    && (forall x :: x in s.policies ==> t.policies[x] == s.policies[x] || t.policies[x] == Unlisted(key, s.policies[x]))
    && (forall x :: x in s.policies && x !in list[..n] ==> t.policies[x] == s.policies[x])
    && (!t.err ==> forall x :: x in s.policies && x in list[..n] ==> key !in t.policies[x].managed)
  }

  lemma UnlistedTwice(key: Key, p: Policy)
    ensures key !in Unlisted(key, p).managed && Unlisted(key, Unlisted(key, p)) == Unlisted(key, p)
  {
    DropMembers(p.managed, {key}, key);
    DropTwice(p.managed, {key}, {key});
    assert {key} + {key} == {key};
  }

  /** q is p without, at most, the key in its managed list. */
  ghost predicate LosesAtMost(key: Key, p: Policy, q: Policy) {
    && q == p.(managed := q.managed) && (forall k :: k in q.managed ==> k in p.managed)
    && forall k :: k != key && k in p.managed ==> k in q.managed
  }

  lemma LosesEach(key: Key, s: Withdrawing)
    ensures forall x :: x in s.policies ==> LosesAtMost(key, s.policies[x], Unlisted(key, s.policies[x]))
  {
    forall x, k | x in s.policies
      ensures k in Unlisted(key, s.policies[x]).managed <==> k in s.policies[x].managed && k !in {key}
    {
      DropMembers(s.policies[x].managed, {key}, k);
    }
  }

  lemma StepWithdraws(key: Key, list: seq<string>, n: nat, s: Withdrawing, t: Withdrawing, u: Withdrawing)
    requires 0 < n <= |list| && Withdrawn(key, list, n - 1, s, t)
    requires var name := list[n - 1];
             || u == t.(err := true)
             || (u == t && !(name in t.policies && key in t.policies[name].managed))
             || (name in t.policies && u == t.(policies := t.policies[name := Unlisted(key, t.policies[name])]))
    ensures Withdrawn(key, list, n, s, u)
  {
    var name := list[n - 1];
    assert forall x :: x in list[..n] <==> x in list[..n - 1] || x == name;
    if name in s.policies {
      UnlistedTwice(key, s.policies[name]);
      UnlistedTwice(key, t.policies[name]);
    }
  }

  /** A deletion, failing or not, takes the key out of some of the policies the status names and touches
      nothing else; one that succeeds takes it out of all of them. */
  lemma {:induction false} WithdrawsExactly(key: Key, list: seq<string>, down: set<Call>, n: nat, s: Withdrawing)
    requires n <= |list|
    ensures Withdrawn(key, list, n, s, AfterWithdrawals(key, list, down, n, s))
    ensures var t := AfterWithdrawals(key, list, down, n, s);
            && t.policies.Keys == s.policies.Keys
            && forall x :: x in s.policies ==> LosesAtMost(key, s.policies[x], t.policies[x])
  {
    LosesEach(key, s);
    if n > 0 {
      var t := AfterWithdrawals(key, list, down, n - 1, s);
      WithdrawsExactly(key, list, down, n - 1, s);
      if t.err {
        assert forall x :: x in list[..n - 1] ==> x in list[..n];
      } else {
        StepWithdraws(key, list, n, s, t, AfterWithdrawals(key, list, down, n, s));
      }
    }
  }

  /** The j-th policy of the walk makes it err: it cannot be read, or it lists the key, no earlier step took the key
      out, and it cannot be written. */
  ghost predicate FailsAt(key: Key, list: seq<string>, down: set<Call>, s: Withdrawing, j: nat)
    requires j < |list|
  {
    || GetRemoved(j) in down
    || (WriteRemoved(j) in down && list[j] !in list[..j]
        && list[j] in s.policies && key in s.policies[list[j]].managed)
  }

  lemma {:induction false} WithdrawalFailsExactlyWhen(key: Key, list: seq<string>, down: set<Call>, n: nat,
                                                      s: Withdrawing)
    requires n <= |list| && !s.err
    ensures AfterWithdrawals(key, list, down, n, s).err <==>
            exists j: nat :: j < n && FailsAt(key, list, down, s, j)
  {
    if n > 0 {
      var t := AfterWithdrawals(key, list, down, n - 1, s);
      WithdrawalFailsExactlyWhen(key, list, down, n - 1, s);
      WithdrawsExactly(key, list, down, n - 1, s);
      if !t.err {
        assert AfterWithdrawals(key, list, down, n, s).err <==> FailsAt(key, list, down, s, n - 1);
      }
    }
  }

  /** A policy generated for the resource is neither left nor deleted when the resource goes: the status
      names it by its short name, and the deletion does not look at the mapping. */
  lemma GeneratedPolicyStays(key: Key, status: ResourceStatus, down: set<Call>, s: Withdrawing, policy: string)
    requires policy in status.mapping && status.mapping[policy] in s.policies
    requires status.mapping[policy] !in StatusList(status)
    ensures var list := StatusList(status);
            var t := AfterWithdrawals(key, list, down, |list|, s);
            status.mapping[policy] in t.policies &&
                t.policies[status.mapping[policy]] == s.policies[status.mapping[policy]]
  {
    var list := StatusList(status);
    WithdrawsExactly(key, list, down, |list|, s);
    assert list[..|list|] == list;
  }
}
