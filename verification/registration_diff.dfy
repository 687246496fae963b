// What a handlePolicy pass does to the managed lists: the diff between the policies a resource names
// now and the ones it recorded last time.
module RegistrationDiff {
  import opened KeyNames
  import opened PolicyObjects
  import opened Registration
  import opened Slices
  import opened Tables

  /** q is p up to the spec, the annotation and `key` in the managed list. */
  ghost predicate OnlyMoves(key: Key, p: Policy, q: Policy) {
    && q.finalizers == p.finalizers && q.tcpId == p.tcpId && q.udpId == p.udpId
    && (p.deleting ==> q.deleting)
    && forall k :: k != key ==> (k in q.managed <==> k in p.managed)
  }

  /** One successful step of the adding walk, without its branches. */
  ghost predicate AddStep(c: Pass, policy: string, s: State, t: State) {
    var name := KubeName(t.status, policy);
    && (c.allowAuto ==> name in t.policies)
    && (name == KubeName(s.status, policy) || name == GeneratedName(policy, c.key))
    && (KubeName(s.status, policy) in s.policies ==> name == KubeName(s.status, policy))
    && (forall x :: x in s.policies ==> x in t.policies && OnlyMoves(c.key, s.policies[x], t.policies[x]))
    && (forall x :: x in t.policies && x != name ==> x in s.policies && t.policies[x] == s.policies[x])
    && (forall q :: q != policy ==> (q in t.status.mapping <==> q in s.status.mapping))
    && (forall q :: q != policy && q in s.status.mapping ==> t.status.mapping[q] == s.status.mapping[q])
    && t.status.policyName == s.status.policyName
  }

  lemma TouchIsStep(c: Pass, n: nat, policy: string, s: State, t: State)
    requires KubeName(s.status, policy) in s.policies
    requires t == AfterTouch(c, n, policy, KubeName(s.status, policy), s) && !t.err
    ensures AddStep(c, policy, s, t)
  {
  }

  lemma CreateIsStep(c: Pass, n: nat, policy: string, s: State, t: State)
    requires KubeName(s.status, policy) !in s.policies && t == AfterCreate(c, n, policy, s) && !t.err
    ensures KubeName(t.status, policy) == GeneratedName(policy, c.key)
    ensures KubeName(t.status, policy) in t.policies && AddStep(c, policy, s, t)
  {
  }

  lemma StepsCompose(c: Pass, policy: string, s: State, u: State, t: State)
    requires AddStep(c, policy, s, u) && AddStep(c, policy, u, t) && KubeName(u.status, policy) in u.policies
    ensures AddStep(c, policy, s, t)
  {
  }

  lemma AddIsStep(c: Pass, n: nat, policy: string, s: State, t: State)
    requires t == AfterAdd(c, n, policy, s) && !t.err
    ensures !s.err && AddStep(c, policy, s, t)
  {
    if KubeName(s.status, policy) in s.policies {
      TouchIsStep(c, n, policy, s, t);
    } else if c.allowAuto {
      var made := AfterCreate(c, n, policy, s);
      CreateIsStep(c, n, policy, s, made);
      TouchIsStep(c, n, policy, made, t);
      StepsCompose(c, policy, s, made, t);
    }
  }

  /** What the adding half of a pass has done after the first n listed policies. */
  ghost predicate Added(c: Pass, list: seq<string>, n: nat, s: State, t: State)
    requires n <= |list|
  {
    && (c.allowAuto ==> forall j :: 0 <= j < n ==> KubeName(t.status, list[j]) in t.policies)
    && (forall q :: KubeName(t.status, q) == KubeName(s.status, q) || KubeName(t.status, q) == GeneratedName(q, c.key))
    && (forall x :: x in s.policies ==> x in t.policies && OnlyMoves(c.key, s.policies[x], t.policies[x]))
    && (forall x :: x in t.policies && x !in AddedNames(list, n, t.status) ==>
          x in s.policies && t.policies[x] == s.policies[x])
    && (forall q :: q !in list[..n] ==> (q in t.status.mapping <==> q in s.status.mapping))
    && (forall q :: q !in list[..n] && q in s.status.mapping ==> t.status.mapping[q] == s.status.mapping[q])
    && t.status.policyName == s.status.policyName
  }

  /** Cluster names of the first n listed policies. */
  ghost function AddedNames(list: seq<string>, n: nat, status: ResourceStatus): set<string>
    requires n <= |list|
  {
    set j | 0 <= j < n :: KubeName(status, list[j])
  }

  lemma AddedStays(c: Pass, list: seq<string>, n: nat, s: State, u: State, t: State)
    requires 0 < n <= |list| && Added(c, list, n - 1, s, u) && AddStep(c, list[n - 1], u, t)
    ensures c.allowAuto ==> forall j :: 0 <= j < n ==> KubeName(t.status, list[j]) in t.policies
    ensures forall q ::
        KubeName(t.status, q) == KubeName(s.status, q) || KubeName(t.status, q) == GeneratedName(q, c.key)
  {
    forall j | 0 <= j < n && list[j] != list[n - 1]
      ensures KubeName(t.status, list[j]) == KubeName(u.status, list[j])
    {
    }
  }

  lemma AddedFrame(c: Pass, list: seq<string>, n: nat, s: State, u: State, t: State)
    requires 0 < n <= |list| && Added(c, list, n - 1, s, u) && AddStep(c, list[n - 1], u, t)
    ensures forall x :: x in t.policies && x !in AddedNames(list, n, t.status) ==>
              x in s.policies && t.policies[x] == s.policies[x]
  {
    forall x | x in t.policies && x !in AddedNames(list, n, t.status)
      ensures x in s.policies && t.policies[x] == s.policies[x]
    {
      assert KubeName(t.status, list[n - 1]) in AddedNames(list, n, t.status);
      forall j | 0 <= j < n - 1 ensures KubeName(u.status, list[j]) != x {
        assert KubeName(t.status, list[j]) in AddedNames(list, n, t.status);
      }
    }
  }

  lemma AddedMapping(c: Pass, list: seq<string>, n: nat, s: State, u: State, t: State)
    requires 0 < n <= |list| && Added(c, list, n - 1, s, u) && AddStep(c, list[n - 1], u, t)
    ensures forall q :: q !in list[..n] ==> (q in t.status.mapping <==> q in s.status.mapping)
    ensures forall q :: q !in list[..n] && q in s.status.mapping ==> t.status.mapping[q] == s.status.mapping[q]
    ensures forall x :: x in s.policies ==> x in t.policies && OnlyMoves(c.key, s.policies[x], t.policies[x])
  {
    assert list[..n] == list[..n - 1] + [list[n - 1]];
  }

  lemma {:induction false} AddsRegister(c: Pass, list: seq<string>, n: nat, s: State)
    requires n <= |list| && !AfterAdds(c, list, n, s).err
    ensures Added(c, list, n, s, AfterAdds(c, list, n, s))
  {
    if n > 0 {
      var u := AfterAdds(c, list, n - 1, s);
      var t := AfterAdds(c, list, n, s);
      AddIsStep(c, n - 1, list[n - 1], u, t);
      AddsRegister(c, list, n - 1, s);
      AddedStays(c, list, n, s, u, t);
      AddedFrame(c, list, n, s, u, t);
      AddedMapping(c, list, n, s, u, t);
    }
  }

  /** One successful step of the removing walk, without its branches. */
  ghost predicate RemoveStep(c: Pass, policy: string, kept: seq<string>, s: State, t: State) {
    var name := KubeName(s.status, policy);
    && t.status.policyName == s.status.policyName
    && (policy in kept ==> t == s)
    && (forall x :: x in t.policies ==> x in s.policies && OnlyMoves(c.key, s.policies[x], t.policies[x]))
    && (forall x :: x in s.policies && x != name ==> x in t.policies && t.policies[x] == s.policies[x])
    && (forall x :: x in t.policies && c.key in t.policies[x].managed ==> c.key in s.policies[x].managed)
    && (policy !in kept && policy !in s.status.mapping && policy in t.policies ==>
          c.key !in t.policies[policy].managed)
    && (policy !in kept && policy in s.status.mapping && name in t.policies ==>
          t.policies[name].deleting && t.policies[name].finalizers != [] && policy !in t.status.mapping)
    && (policy !in kept && policy in s.status.mapping && name in s.policies ==> policy !in t.status.mapping)
    && (forall x :: x in s.policies && x !in t.policies ==>
          && policy in s.status.mapping && s.status.mapping[policy] == x && policy !in t.status.mapping
          && s.policies[x].finalizers == [])
    && (forall q :: q in t.status.mapping ==> q in s.status.mapping && t.status.mapping[q] == s.status.mapping[q])
    && (forall q :: q != policy && q in s.status.mapping ==> q in t.status.mapping)
  }

  lemma RemoveIsStep(c: Pass, n: nat, policy: string, kept: seq<string>, s: State, t: State)
    requires t == AfterRemove(c, n, policy, kept, s) && !t.err
    ensures !s.err && RemoveStep(c, policy, kept, s, t)
  {
    var name := KubeName(s.status, policy);
    if name in s.policies {
      forall k
        ensures k in Drop(s.policies[name].managed, {c.key}) <==> k in s.policies[name].managed && k !in {c.key}
      {
        DropMembers(s.policies[name].managed, {c.key}, k);
      }
    }
  }

  /** Names a removal may reach: the policy itself, or the object it was mapped to. */
  ghost function RemovedNames(list: seq<string>, n: nat, kept: seq<string>, status: ResourceStatus): set<string>
    requires n <= |list|
  {
    (set j | 0 <= j < n && list[j] !in kept :: list[j]) +
    (set j | 0 <= j < n && list[j] !in kept && list[j] in status.mapping :: status.mapping[list[j]])
  }

  /** What the removing half of a pass has done after the first n recorded policies. */
  ghost predicate Removed(c: Pass, list: seq<string>, kept: seq<string>, n: nat, s: State, t: State)
    requires n <= |list|
  {
    && (forall x :: x in t.policies ==> x in s.policies && OnlyMoves(c.key, s.policies[x], t.policies[x]))
    && (forall x :: x in s.policies && x !in RemovedNames(list, n, kept, s.status) ==>
          x in t.policies && t.policies[x] == s.policies[x])
    && (forall x :: x in t.policies && c.key in t.policies[x].managed ==> c.key in s.policies[x].managed)
    && (forall j :: 0 <= j < n && list[j] !in kept && list[j] !in s.status.mapping && list[j] in t.policies ==>
          c.key !in t.policies[list[j]].managed)
    && (forall q :: q in s.status.mapping && q !in t.status.mapping && s.status.mapping[q] in t.policies ==>
          t.policies[s.status.mapping[q]].deleting && t.policies[s.status.mapping[q]].finalizers != [])
    && (forall q :: q in t.status.mapping && q !in kept && q in list[..n] ==> t.status.mapping[q] !in t.policies)
    && (forall x :: x in s.policies && x !in t.policies ==> s.policies[x].finalizers == [])
    && (forall x :: x in s.policies && x !in t.policies ==>
          exists q :: q in s.status.mapping && q !in t.status.mapping && s.status.mapping[q] == x)
    && (forall q :: q in t.status.mapping ==> q in s.status.mapping && t.status.mapping[q] == s.status.mapping[q])
    && (forall q :: q in kept && q in s.status.mapping ==> q in t.status.mapping)
    && t.status.policyName == s.status.policyName
  }

  lemma RemovedFrame(c: Pass, list: seq<string>, kept: seq<string>, n: nat, s: State, u: State, t: State)
    requires 0 < n <= |list| && Removed(c, list, kept, n - 1, s, u) && RemoveStep(c, list[n - 1], kept, u, t)
    ensures forall x :: x in s.policies && x !in RemovedNames(list, n, kept, s.status) ==>
              x in t.policies && t.policies[x] == s.policies[x]
  {
    forall x | x in s.policies && x !in RemovedNames(list, n, kept, s.status)
      ensures x in t.policies && t.policies[x] == s.policies[x]
    {
      assert x !in RemovedNames(list, n - 1, kept, s.status);
      assert list[n - 1] !in kept ==> list[n - 1] in RemovedNames(list, n, kept, s.status);
      assert list[n - 1] !in kept && list[n - 1] in s.status.mapping ==>
             s.status.mapping[list[n - 1]] in RemovedNames(list, n, kept, s.status);
    }
  }

  lemma RemovedMembers(c: Pass, list: seq<string>, kept: seq<string>, n: nat, s: State, u: State, t: State)
    requires 0 < n <= |list| && Removed(c, list, kept, n - 1, s, u) && RemoveStep(c, list[n - 1], kept, u, t)
    ensures forall x :: x in t.policies ==> x in s.policies && OnlyMoves(c.key, s.policies[x], t.policies[x])
    ensures forall x :: x in t.policies && c.key in t.policies[x].managed ==> c.key in s.policies[x].managed
  {
    forall x | x in t.policies
      ensures x in s.policies && OnlyMoves(c.key, s.policies[x], t.policies[x])
      ensures c.key in t.policies[x].managed ==> c.key in s.policies[x].managed
    {
      assert x in u.policies && OnlyMoves(c.key, u.policies[x], t.policies[x]);
      assert OnlyMoves(c.key, s.policies[x], u.policies[x]);
    }
  }

  lemma RemovedEntries(c: Pass, list: seq<string>, kept: seq<string>, n: nat, s: State, u: State, t: State)
    requires 0 < n <= |list| && Removed(c, list, kept, n - 1, s, u) && RemoveStep(c, list[n - 1], kept, u, t)
    ensures forall j :: 0 <= j < n && list[j] !in kept && list[j] !in s.status.mapping && list[j] in t.policies ==>
              c.key !in t.policies[list[j]].managed
  {
    forall j | 0 <= j < n && list[j] !in kept && list[j] !in s.status.mapping && list[j] in t.policies
      ensures c.key !in t.policies[list[j]].managed
    {
      var q := list[j];
      assert q !in u.status.mapping;
      EntryRemoved(c, list[n - 1], kept, u, t, q);
      if j < n - 1 {
        assert c.key !in u.policies[q].managed;
      }
    }
  }

  lemma EntryRemoved(c: Pass, policy: string, kept: seq<string>, u: State, t: State, q: string)
    requires RemoveStep(c, policy, kept, u, t) && q in t.policies && q !in kept && q !in u.status.mapping
    ensures q in u.policies && (q == policy || c.key !in u.policies[q].managed ==> c.key !in t.policies[q].managed)
  {
  }

  lemma RemovedMapped(c: Pass, list: seq<string>, kept: seq<string>, n: nat, s: State, u: State, t: State)
    requires 0 < n <= |list| && Removed(c, list, kept, n - 1, s, u) && RemoveStep(c, list[n - 1], kept, u, t)
    ensures forall q :: q in s.status.mapping && q !in t.status.mapping && s.status.mapping[q] in t.policies ==>
              t.policies[s.status.mapping[q]].deleting && t.policies[s.status.mapping[q]].finalizers != []
    ensures forall q :: q in t.status.mapping && q !in kept && q in list[..n] ==> t.status.mapping[q] !in t.policies
    ensures forall q :: q in t.status.mapping ==> q in s.status.mapping && t.status.mapping[q] == s.status.mapping[q]
    ensures forall q :: q in kept && q in s.status.mapping ==> q in t.status.mapping
  {
    assert list[..n] == list[..n - 1] + [list[n - 1]];
    forall q | q in s.status.mapping && q !in t.status.mapping && s.status.mapping[q] in t.policies
      ensures t.policies[s.status.mapping[q]].deleting && t.policies[s.status.mapping[q]].finalizers != []
    {
      var name := s.status.mapping[q];
      assert name in u.policies && OnlyMoves(c.key, u.policies[name], t.policies[name]);
    }
  }

  lemma {:induction false} RemovesWithdraw(c: Pass, list: seq<string>, kept: seq<string>, n: nat, s: State)
    requires n <= |list| && !AfterRemoves(c, list, kept, n, s).err
    ensures Removed(c, list, kept, n, s, AfterRemoves(c, list, kept, n, s))
  {
    if n > 0 {
      var u := AfterRemoves(c, list, kept, n - 1, s);
      var t := AfterRemoves(c, list, kept, n, s);
      RemoveIsStep(c, n - 1, list[n - 1], kept, u, t);
      RemovesWithdraw(c, list, kept, n - 1, s);
      RemovedFrame(c, list, kept, n, s, u, t);
      RemovedMembers(c, list, kept, n, s, u, t);
      RemovedEntries(c, list, kept, n, s, u, t);
      RemovedMapped(c, list, kept, n, s, u, t);
      forall x | x in s.policies && x !in t.policies
        ensures s.policies[x].finalizers == []
        ensures exists q :: q in s.status.mapping && q !in t.status.mapping && s.status.mapping[q] == x
      {
        if x in u.policies {
          assert list[n - 1] in s.status.mapping && s.status.mapping[list[n - 1]] == x;
        }
      }
    }
  }

  /** Every policy name a pass may have to withdraw from: recorded, but no longer listed. */
  ghost function Dropped(c: Pass, s: State): set<string> {
    set q | q in StatusList(s.status) && q !in Names(c.spec.policyName, ',')
  }

  /** Cluster names those withdrawals may reach. */
  ghost function Withdrawn(c: Pass, s: State): set<string> {
    Dropped(c, s) + set q | q in Dropped(c, s) && q in s.status.mapping :: s.status.mapping[q]
  }

  // ----- who is in a managed list -----

  predicate Listed(key: Key, policies: map<string, Policy>, x: string) {
    x in policies && key in policies[x].managed
  }

  /** The adding step for `policy` enters the key into the list of object x: it finds x and has no spec to
      correct, or it creates x. */
  predicate Enlists(c: Pass, policy: string, s: State, x: string) {
    var name := KubeName(s.status, policy);
    if name in s.policies then x == name && !Outdated(c, policy, s.status, s.policies[x])
    else c.allowAuto && x == GeneratedName(policy, c.key)
  }

  lemma AddEnlists(c: Pass, n: nat, policy: string, s: State, t: State, x: string)
    requires t == AfterAdd(c, n, policy, s) && !t.err
    ensures Listed(c.key, t.policies, x) <==> Listed(c.key, s.policies, x) || Enlists(c, policy, s, x)
  {
  }

  /** Adding step j enters the key into the list of x. */
  predicate EnlistsAt(c: Pass, list: seq<string>, j: nat, s: State, x: string)
    requires j < |list|
  {
    Enlists(c, list[j], AfterAdds(c, list, j, s), x)
  }

  /** One of the first n adding steps enters the key into the list of x. */
  predicate EnlistedBy(c: Pass, list: seq<string>, n: nat, s: State, x: string)
    requires n <= |list|
  {
    n > 0 && (EnlistedBy(c, list, n - 1, s, x) || EnlistsAt(c, list, n - 1, s, x))
  }

  lemma {:induction false} AddsEnlist(c: Pass, list: seq<string>, n: nat, s: State, x: string)
    requires n <= |list| && !AfterAdds(c, list, n, s).err
    ensures Listed(c.key, AfterAdds(c, list, n, s).policies, x) <==>
            Listed(c.key, s.policies, x) || EnlistedBy(c, list, n, s, x)
  {
    if n > 0 {
      var u, t := AfterAdds(c, list, n - 1, s), AfterAdds(c, list, n, s);
      assert t == AfterAdd(c, n - 1, list[n - 1], u);
      AddEnlists(c, n - 1, list[n - 1], u, t, x);
      AddsEnlist(c, list, n - 1, s, x);
    }
  }

  /** The removing step for `policy` strikes the key from the list of object x. */
  predicate Strikes(policy: string, kept: seq<string>, s: State, x: string) {
    policy == x && policy !in kept && policy !in s.status.mapping
  }

  lemma RemoveStrikes(c: Pass, n: nat, policy: string, kept: seq<string>, s: State, t: State, x: string)
    requires t == AfterRemove(c, n, policy, kept, s) && !t.err
    ensures t.policies.Keys <= s.policies.Keys
    ensures Listed(c.key, t.policies, x) <==>
        x in t.policies && Listed(c.key, s.policies, x) && !Strikes(policy, kept, s, x)
  {
    if KubeName(s.status, policy) in s.policies {
      DropMembers(s.policies[KubeName(s.status, policy)].managed, {c.key}, c.key);
    }
  }

  /** One of the first n removing steps strikes the key from the list of x. */
  predicate StruckBy(c: Pass, list: seq<string>, kept: seq<string>, n: nat, s: State, x: string)
    requires n <= |list|
  {
    && n > 0
    && (StruckBy(c, list, kept, n - 1, s, x) || Strikes(list[n - 1], kept, AfterRemoves(c, list, kept, n - 1, s), x))
  }

  lemma {:induction false} RemovesStrike(c: Pass, list: seq<string>, kept: seq<string>, n: nat, s: State, x: string)
    requires n <= |list| && !AfterRemoves(c, list, kept, n, s).err
    ensures AfterRemoves(c, list, kept, n, s).policies.Keys <= s.policies.Keys
    ensures var t := AfterRemoves(c, list, kept, n, s);
            Listed(c.key, t.policies, x) <==>
            x in t.policies && Listed(c.key, s.policies, x) && !StruckBy(c, list, kept, n, s, x)
  {
    if n > 0 {
      var u, t := AfterRemoves(c, list, kept, n - 1, s), AfterRemoves(c, list, kept, n, s);
      assert t == AfterRemove(c, n - 1, list[n - 1], kept, u);
      RemoveStrikes(c, n - 1, list[n - 1], kept, u, t, x);
      RemovesStrike(c, list, kept, n - 1, s, x);
    }
  }

  /** In the list before the pass, or entered by one of its adding steps. */
  predicate Enrolled(c: Pass, s: State, x: string) {
    var listed := Names(c.spec.policyName, ',');
    Listed(c.key, s.policies, x) || EnlistedBy(c, listed, |listed|, s, x)
  }

  /** Struck by one of the removing steps. */
  predicate Struck(c: Pass, s: State, x: string) {
    var listed, recorded := Names(c.spec.policyName, ','), StatusList(s.status);
    StruckBy(c, recorded, listed, |recorded|, AfterAdds(c, listed, |listed|, s), x)
  }

  /** Exactly which policies list the resource after a successful pass. */
  lemma RegisteredExactlyWhen(c: Pass, s: State, t: State, x: string)
    requires !s.err && t == AfterPolicy(c, s) && !t.err
    requires s.status.policyName.Some? || c.spec.policyName != ""
    ensures Listed(c.key, t.policies, x) <==> x in t.policies && Enrolled(c, s, x) && !Struck(c, s, x)
  {
    var listed, recorded := Names(c.spec.policyName, ','), StatusList(s.status);
    var u := AfterAdds(c, listed, |listed|, s);
    if u.err {
      RemovesStop(c, recorded, listed, |recorded|, u);
    }
    AddsEnlist(c, listed, |listed|, s, x);
    RemovesStrike(c, recorded, listed, |recorded|, u, x);
  }

  // ----- the same in terms of the state before the pass -----

  lemma {:induction false} MappingStays(c: Pass, list: seq<string>, kept: seq<string>, n: nat, s: State, q: string)
    requires n <= |list| && !AfterRemoves(c, list, kept, n, s).err && q !in list[..n]
    ensures q in AfterRemoves(c, list, kept, n, s).status.mapping <==> q in s.status.mapping
  {
    if n > 0 {
      var u, t := AfterRemoves(c, list, kept, n - 1, s), AfterRemoves(c, list, kept, n, s);
      RemoveIsStep(c, n - 1, list[n - 1], kept, u, t);
      assert list[..n] == list[..n - 1] + [list[n - 1]];
      MappingStays(c, list, kept, n - 1, s, q);
    }
  }

  lemma {:induction false} StruckOnce(c: Pass, list: seq<string>, kept: seq<string>, n: nat, s: State, x: string)
    requires n <= |list| && NoRepeats(list) && !AfterRemoves(c, list, kept, n, s).err
    ensures StruckBy(c, list, kept, n, s, x) <==> x in list[..n] && x !in kept && x !in s.status.mapping
  {
    if n > 0 {
      var u := AfterRemoves(c, list, kept, n - 1, s);
      assert AfterRemoves(c, list, kept, n, s) == AfterRemove(c, n - 1, list[n - 1], kept, u);
      StruckOnce(c, list, kept, n - 1, s, x);
      assert list[..n] == list[..n - 1] + [list[n - 1]];
      if list[n - 1] == x {
        assert x !in list[..n - 1];
        MappingStays(c, list, kept, n - 1, s, x);
      }
    }
  }

  /** When the status repeats no name, what is struck is every dropped name without mapping. */
  lemma StruckPlainly(c: Pass, s: State, t: State, x: string)
    requires !s.err && t == AfterPolicy(c, s) && !t.err
    requires s.status.policyName.Some? || c.spec.policyName != ""
    requires NoRepeats(StatusList(s.status))
    ensures Struck(c, s, x) <==> x in Dropped(c, s) && x !in s.status.mapping
  {
    var u, v := PassHalves(c, s, t);
    DroppedStruck(c, Names(c.spec.policyName, ','), StatusList(s.status), s, u, x);
  }

  lemma DroppedStruck(c: Pass, listed: seq<string>, recorded: seq<string>, s: State, u: State, x: string)
    requires Added(c, listed, |listed|, s, u) && NoRepeats(recorded)
    requires !AfterRemoves(c, recorded, listed, |recorded|, u).err
    ensures StruckBy(c, recorded, listed, |recorded|, u, x) <==>
            x in recorded && x !in listed && x !in s.status.mapping
  {
    StruckOnce(c, recorded, listed, |recorded|, u, x);
    assert recorded[..|recorded|] == recorded && listed[..|listed|] == listed;
  }

  /** Of the listed policies only p leads to object x. */
  ghost predicate Sole(c: Pass, s: State, p: string, x: string) {
    && NoRepeats(Names(c.spec.policyName, ',')) && p in Names(c.spec.policyName, ',')
    && forall q :: q in Names(c.spec.policyName, ',') && q != p ==>
         KubeName(s.status, q) != x && GeneratedName(q, c.key) != x
  }

  /** What the step for p finds when only p leads to x is what was there before the pass. */
  lemma StepFinds(c: Pass, list: seq<string>, j: nat, s: State, x: string)
    requires j < |list| && !AfterAdds(c, list, j, s).err && list[j] !in list[..j]
    requires forall i :: 0 <= i < j ==> KubeName(s.status, list[i]) != x && GeneratedName(list[i], c.key) != x
    ensures var u := AfterAdds(c, list, j, s);
            && KubeName(u.status, list[j]) == KubeName(s.status, list[j])
            && (list[j] in u.status.mapping <==> list[j] in s.status.mapping)
            && (x in u.policies <==> x in s.policies) && (x in s.policies ==> u.policies[x] == s.policies[x])
  {
    var u := AfterAdds(c, list, j, s);
    AddsRegister(c, list, j, s);
    forall i | 0 <= i < j ensures KubeName(u.status, list[i]) != x {
    }
    assert x !in AddedNames(list, j, u.status);
  }

  lemma OthersMiss(c: Pass, list: seq<string>, j: nat, s: State, x: string)
    requires j < |list| && !AfterAdds(c, list, j, s).err
    requires KubeName(s.status, list[j]) != x && GeneratedName(list[j], c.key) != x
    ensures !Enlists(c, list[j], AfterAdds(c, list, j, s), x)
  {
    AddsRegister(c, list, j, s);
  }

  lemma {:induction false} EnlistedNever(c: Pass, list: seq<string>, n: nat, s: State, x: string)
    requires n <= |list| && forall j :: 0 <= j < n ==> !EnlistsAt(c, list, j, s, x)
    ensures !EnlistedBy(c, list, n, s, x)
  {
    if n > 0 {
      EnlistedNever(c, list, n - 1, s, x);
      assert !EnlistsAt(c, list, n - 1, s, x);
    }
  }

  lemma {:induction false} EnlistedOnce(c: Pass, list: seq<string>, n: nat, s: State, x: string, k: nat)
    requires k < n <= |list| && forall j :: 0 <= j < n && j != k ==> !EnlistsAt(c, list, j, s, x)
    ensures EnlistedBy(c, list, n, s, x) <==> EnlistsAt(c, list, k, s, x)
  {
    if n - 1 == k {
      EnlistedNever(c, list, k, s, x);
    } else {
      EnlistedOnce(c, list, n - 1, s, x, k);
      assert !EnlistsAt(c, list, n - 1, s, x);
    }
  }

  lemma EnrolledPlainly(c: Pass, s: State, t: State, p: string, x: string)
    requires !s.err && t == AfterPolicy(c, s) && !t.err
    requires Sole(c, s, p, x) && Sole(c, s, p, KubeName(s.status, p))
    ensures Enrolled(c, s, x) <==> Listed(c.key, s.policies, x) || Enlists(c, p, s, x)
  {
    var listed, recorded := Names(c.spec.policyName, ','), StatusList(s.status);
    var u := AfterAdds(c, listed, |listed|, s);
    if u.err {
      RemovesStop(c, recorded, listed, |recorded|, u);
    }
    var k :| 0 <= k < |listed| && listed[k] == p;
    forall j | 0 <= j < |listed| ensures !AfterAdds(c, listed, j, s).err {
      if AfterAdds(c, listed, j, s).err {
        AddsStop(c, listed, j, |listed|, s);
      }
    }
    forall i | 0 <= i < |listed| && i != k
      ensures KubeName(s.status, listed[i]) != x && GeneratedName(listed[i], c.key) != x
      ensures KubeName(s.status, listed[i]) != KubeName(s.status, p)
      ensures GeneratedName(listed[i], c.key) != KubeName(s.status, p)
    {
      assert listed[i] in listed && listed[i] != p;
    }
    StepFinds(c, listed, k, s, x);
    StepFinds(c, listed, k, s, KubeName(s.status, p));
    forall j | 0 <= j < |listed| && j != k ensures !EnlistsAt(c, listed, j, s, x) {
      OthersMiss(c, listed, j, s, x);
    }
    EnlistedOnce(c, listed, |listed|, s, x, k);
  }

  /** With one name per object and none repeated, all from the state before the pass: the resource ends up in
      the list of x exactly when it was there, or p finds x without a spec to correct, or creates it; and x is
      not itself a dropped name without mapping. */
  lemma RegisteredPlainly(c: Pass, s: State, t: State, p: string, x: string)
    requires !s.err && t == AfterPolicy(c, s) && !t.err
    requires s.status.policyName.Some? || c.spec.policyName != ""
    requires Sole(c, s, p, x) && Sole(c, s, p, KubeName(s.status, p)) && NoRepeats(StatusList(s.status))
    ensures Listed(c.key, t.policies, x) <==>
            && x in t.policies && (Listed(c.key, s.policies, x) || Enlists(c, p, s, x))
            && !(x in Dropped(c, s) && x !in s.status.mapping)
  {
    RegisteredExactlyWhen(c, s, t, x);
    EnrolledPlainly(c, s, t, p, x);
    StruckPlainly(c, s, t, x);
  }

  // ----- which groups the status records -----

  /** The adding step finds or creates a policy object. */
  predicate Touches(c: Pass, policy: string, s: State) {
    KubeName(s.status, policy) in s.policies || c.allowAuto
  }

  lemma AddRecordsGroups(c: Pass, n: nat, policy: string, s: State, t: State)
    requires t == AfterAdd(c, n, policy, s) && !t.err
    ensures t.status.groups == if Touches(c, policy, s) then SyncedStatus(c, s.status).groups else s.status.groups
  {
  }

  /** One of the first n adding steps finds or creates its policy. */
  predicate TouchedBy(c: Pass, list: seq<string>, n: nat, s: State)
    requires n <= |list|
  {
    n > 0 && (TouchedBy(c, list, n - 1, s) || Touches(c, list[n - 1], AfterAdds(c, list, n - 1, s)))
  }

  lemma {:induction false} AddsRecordGroups(c: Pass, list: seq<string>, n: nat, s: State)
    requires n <= |list| && !AfterAdds(c, list, n, s).err
    ensures AfterAdds(c, list, n, s).status.groups ==
            if TouchedBy(c, list, n, s) then SyncedStatus(c, s.status).groups else s.status.groups
  {
    if n > 0 {
      var u, t := AfterAdds(c, list, n - 1, s), AfterAdds(c, list, n, s);
      assert t == AfterAdd(c, n - 1, list[n - 1], u);
      AddRecordsGroups(c, n - 1, list[n - 1], u, t);
      AddsRecordGroups(c, list, n - 1, s);
      SyncTwice(c, s.status, u.status);
    }
  }

  lemma SyncTwice(c: Pass, status: ResourceStatus, later: ResourceStatus)
    requires later.groups == SyncedStatus(c, status).groups || later.groups == status.groups
    ensures SyncedStatus(c, later).groups == SyncedStatus(c, status).groups
  {
  }

  lemma {:induction false} RemovesKeepGroups(c: Pass, list: seq<string>, kept: seq<string>, n: nat, s: State)
    requires n <= |list|
    ensures AfterRemoves(c, list, kept, n, s).status.groups == s.status.groups
  {
    if n > 0 {
      RemovesKeepGroups(c, list, kept, n - 1, s);
    }
  }

  /** A successful pass that found or created one of its policies records the groups it resolved, up to the
      comparison of RecordedGroupsExactlyWhen; any other leaves the record alone. */
  lemma PassRecordsGroups(c: Pass, s: State, t: State)
    requires !s.err && t == AfterPolicy(c, s) && !t.err
    requires s.status.policyName.Some? || c.spec.policyName != ""
    ensures var listed := Names(c.spec.policyName, ',');
            t.status.groups ==
            if TouchedBy(c, listed, |listed|, s) then SyncedStatus(c, s.status).groups else s.status.groups
  {
    var listed, recorded := Names(c.spec.policyName, ','), StatusList(s.status);
    var u := AfterAdds(c, listed, |listed|, s);
    if u.err {
      RemovesStop(c, recorded, listed, |recorded|, u);
    }
    AddsRecordGroups(c, listed, |listed|, s);
    RemovesKeepGroups(c, recorded, listed, |recorded|, u);
  }

  // ----- two ways to end up unregistered without an error -----

  /** A policy p mapped to the object q, listed as p while the status still lists q itself: the pass enters the
      key and then strikes it. */
  lemma AliasWithdrawn(c: Pass, s: State)
    requires c.down == {} && !s.err && c.spec.policyName == "p" && s.status.policyName == Some("q")
    requires s.status.mapping == map["p" := "q"] && "q" in s.policies
    ensures var t := AfterPolicy(c, s);
            && !t.err && KubeName(t.status, "p") == "q" && "q" in t.policies && c.key !in t.policies["q"].managed
  {
    NamesOfOne("p", ',');
    NamesOfOne("q", ',');
    var u := AfterAdds(c, ["p"], 1, s);
    assert u == AfterAdd(c, 0, "p", AfterAdds(c, ["p"], 0, s));
    var v := AfterRemoves(c, ["q"], ["p"], 1, u);
    assert v == AfterRemove(c, 0, "q", ["p"], AfterRemoves(c, ["q"], ["p"], 0, u));
    DropMembers(u.policies["q"].managed, {c.key}, c.key);
  }

  /** A mapped policy that needs a spec correction and does not list the resource: the correction discards the
      new entry. */
  lemma CorrectionDiscardsEntry(c: Pass, s: State)
    requires c.down == {} && !s.err && c.spec.policyName == "p" && s.status.policyName == Some("p")
    requires s.status.mapping == map["p" := "g"] && "g" in s.policies
    requires Outdated(c, "p", s.status, s.policies["g"]) && c.key !in s.policies["g"].managed
    ensures var t := AfterPolicy(c, s);
            && !t.err && KubeName(t.status, "p") == "g" && "g" in t.policies && c.key !in t.policies["g"].managed
            && !Outdated(c, "p", t.status, t.policies["g"])
  {
    NamesOfOne("p", ',');
    var u := AfterAdds(c, ["p"], 1, s);
    assert u == AfterAdd(c, 0, "p", AfterAdds(c, ["p"], 0, s));
    var v := AfterRemoves(c, ["p"], ["p"], 1, u);
    assert v == AfterRemove(c, 0, "p", ["p"], AfterRemoves(c, ["p"], ["p"], 0, u));
  }

  /** The registration diff of a successful pass. */
  lemma HandlePolicyDiff(c: Pass, s: State, t: State)
    requires !s.err && t == AfterPolicy(c, s) && !t.err
    requires s.status.policyName.Some? || c.spec.policyName != ""
    ensures t.status.policyName == Some(c.spec.policyName)
    // exactly these policies list the resource
    ensures forall x :: x in t.policies ==> (c.key in t.policies[x].managed <==> Enrolled(c, s, x) && !Struck(c, s, x))
    // withdrawn from every unmapped policy only the status names
    ensures forall q :: q in Dropped(c, s) && q !in s.status.mapping && q in t.policies ==>
              c.key !in t.policies[q].managed
    // every mapped one is gone or guarded and marked for deletion, and unmapped unless it had vanished already
    ensures forall q :: q in Dropped(c, s) && q in s.status.mapping && s.status.mapping[q] in t.policies ==>
              && t.policies[s.status.mapping[q]].deleting && t.policies[s.status.mapping[q]].finalizers != []
              && q !in t.status.mapping
    ensures forall x :: x in s.policies && x !in t.policies ==> s.policies[x].finalizers == []
    ensures forall q | q in Dropped(c, s) && q in s.status.mapping && s.status.mapping[q] in s.policies ::
              (forall p :: p in s.status.mapping && p != q ==> s.status.mapping[p] != s.status.mapping[q])
              ==> q !in t.status.mapping
    // nothing else changes
    ensures var reached := set p | p in Names(c.spec.policyName, ',') :: KubeName(t.status, p);
            forall x :: x !in Withdrawn(c, s) && x !in reached ==>
              (x in t.policies <==> x in s.policies) && (x in s.policies ==> t.policies[x] == s.policies[x])
    ensures forall x :: x in s.policies && x in t.policies ==> OnlyMoves(c.key, s.policies[x], t.policies[x])
  {
    var u, v := PassHalves(c, s, t);
    forall x | x in t.policies ensures c.key in t.policies[x].managed <==> Enrolled(c, s, x) && !Struck(c, s, x) {
      RegisteredExactlyWhen(c, s, t, x);
    }
    Diff1(c, s, u, v);
    Diff2(c, s, u, v);
    Diff3(c, s, u, v);
    Diff4(c, s, u, v);
    assert forall p :: KubeName(t.status, p) == KubeName(v.status, p);
  }

  lemma PassHalves(c: Pass, s: State, t: State) returns (u: State, v: State)
    requires !s.err && t == AfterPolicy(c, s) && !t.err
    requires s.status.policyName.Some? || c.spec.policyName != ""
    ensures Halves(c, s, u, v)
    ensures var listed, recorded := Names(c.spec.policyName, ','), StatusList(s.status);
            u == AfterAdds(c, listed, |listed|, s) && v == AfterRemoves(c, recorded, listed, |recorded|, u)
    ensures t == v.(status := v.status.(policyName := Some(c.spec.policyName)))
  {
    var listed, recorded := Names(c.spec.policyName, ','), StatusList(s.status);
    u := AfterAdds(c, listed, |listed|, s);
    v := AfterRemoves(c, recorded, listed, |recorded|, u);
    if u.err {
      RemovesStop(c, recorded, listed, |recorded|, u);
    }
    AddsRegister(c, listed, |listed|, s);
    RemovesWithdraw(c, recorded, listed, |recorded|, u);
    assert listed[..|listed|] == listed && recorded[..|recorded|] == recorded;
    WithdrawnNames(c, s, u);
  }

  lemma WithdrawnNames(c: Pass, s: State, u: State)
    requires Added(c, Names(c.spec.policyName, ','), |Names(c.spec.policyName, ',')|, s, u)
    ensures RemovedNames(StatusList(s.status), |StatusList(s.status)|, Names(c.spec.policyName, ','), u.status)
         == Withdrawn(c, s)
  {
    var listed, recorded := Names(c.spec.policyName, ','), StatusList(s.status);
    assert listed[..|listed|] == listed;
    var r := RemovedNames(recorded, |recorded|, listed, u.status);
    forall x | x in Withdrawn(c, s) ensures x in r {
      var q :| q in Dropped(c, s) && (x == q || (q in s.status.mapping && x == s.status.mapping[q]));
      var j :| 0 <= j < |recorded| && recorded[j] == q;
      assert recorded[j] in r;
    }
  }

  ghost predicate Halves(c: Pass, s: State, u: State, v: State) {
    var listed, recorded := Names(c.spec.policyName, ','), StatusList(s.status);
    && Added(c, listed, |listed|, s, u)
    && Removed(c, recorded, listed, |recorded|, u, v)
    && RemovedNames(recorded, |recorded|, listed, u.status) == Withdrawn(c, s)
  }

  lemma Diff1(c: Pass, s: State, u: State, v: State)
    requires Halves(c, s, u, v)
    ensures forall q :: q in Dropped(c, s) && q !in s.status.mapping && q in v.policies ==>
              c.key !in v.policies[q].managed
  {
    var listed, recorded := Names(c.spec.policyName, ','), StatusList(s.status);
    assert listed[..|listed|] == listed;
    forall q | q in Dropped(c, s) && q !in s.status.mapping && q in v.policies
      ensures c.key !in v.policies[q].managed
    {
      var j :| 0 <= j < |recorded| && recorded[j] == q;
    }
  }

  lemma Diff2(c: Pass, s: State, u: State, v: State)
    requires Halves(c, s, u, v)
    ensures forall q :: q in Dropped(c, s) && q in s.status.mapping && s.status.mapping[q] in v.policies ==>
              && v.policies[s.status.mapping[q]].deleting && v.policies[s.status.mapping[q]].finalizers != []
              && q !in v.status.mapping
    ensures forall q | q in Dropped(c, s) && q in s.status.mapping && s.status.mapping[q] in s.policies ::
              (forall p :: p in s.status.mapping && p != q ==> s.status.mapping[p] != s.status.mapping[q])
              ==> q !in v.status.mapping
  {
    var listed, recorded := Names(c.spec.policyName, ','), StatusList(s.status);
    assert listed[..|listed|] == listed && recorded[..|recorded|] == recorded;
  }

  lemma AddedAreListed(list: seq<string>, status: ResourceStatus, later: ResourceStatus)
    requires forall p :: p in list ==> KubeName(later, p) == KubeName(status, p)
    ensures AddedNames(list, |list|, status) <= set p | p in list :: KubeName(later, p)
  {
    forall j | 0 <= j < |list| ensures KubeName(status, list[j]) in set p | p in list :: KubeName(later, p) {
      assert list[j] in list;
    }
  }

  lemma Diff3(c: Pass, s: State, u: State, v: State)
    requires Halves(c, s, u, v)
    ensures var reached := set p | p in Names(c.spec.policyName, ',') :: KubeName(v.status, p);
            forall x :: x !in Withdrawn(c, s) && x !in reached ==>
              (x in v.policies <==> x in s.policies) && (x in s.policies ==> v.policies[x] == s.policies[x])
  {
    var listed := Names(c.spec.policyName, ',');
    AddedAreListed(listed, u.status, v.status);
    forall x | x !in Withdrawn(c, s) && x !in (set p | p in listed :: KubeName(v.status, p))
      ensures (x in v.policies <==> x in s.policies) && (x in s.policies ==> v.policies[x] == s.policies[x])
    {
      assert x !in AddedNames(listed, |listed|, u.status);
      assert x in u.policies ==> x in v.policies && v.policies[x] == u.policies[x];
    }
  }

  lemma Diff4(c: Pass, s: State, u: State, v: State)
    requires Halves(c, s, u, v)
    ensures forall x :: x in s.policies && x in v.policies ==> OnlyMoves(c.key, s.policies[x], v.policies[x])
    ensures forall x :: x in s.policies && x !in v.policies ==> s.policies[x].finalizers == []
  {
    forall x | x in s.policies && x !in v.policies ensures s.policies[x].finalizers == [] {
      assert x in u.policies && OnlyMoves(c.key, s.policies[x], u.policies[x]);
    }
    forall x | x in s.policies && x in v.policies ensures OnlyMoves(c.key, s.policies[x], v.policies[x]) {
      assert OnlyMoves(c.key, s.policies[x], u.policies[x]) && OnlyMoves(c.key, u.policies[x], v.policies[x]);
    }
  }

  // ----- a policy somebody wrote by hand -----

  /** The resource never treats `name` as one of its generated policies, whichever it lists. */
  ghost predicate HandWritten(c: Pass, listed: seq<string>, status: ResourceStatus, name: string) {
    && name !in status.mapping && name !in status.mapping.Values
    && forall p :: p in listed ==> GeneratedName(p, c.key) != name
  }

  /** q is p up to the managed list, and there only `key` may come or go. */
  ghost predicate ManagedMoves(key: Key, p: Policy, q: Policy) {
    q == p.(managed := q.managed) && forall k :: k != key ==> (k in q.managed <==> k in p.managed)
  }

  /** What one adding step does to a hand-written policy. */
  ghost predicate HandStep(c: Pass, listed: seq<string>, policy: string, s: State, t: State, name: string)
    requires name in s.policies
  {
    && name in t.policies && HandWritten(c, listed, t.status, name)
    && ManagedMoves(c.key, s.policies[name], t.policies[name])
    && (c.key in s.policies[name].managed ==> c.key in t.policies[name].managed)
    && (policy != name ==> t.policies[name] == s.policies[name])
    && t.status.policyName == s.status.policyName
  }

  lemma HandTouch(c: Pass, listed: seq<string>, n: nat, policy: string, kube: string, s: State, t: State, name: string)
    requires name in s.policies && HandWritten(c, listed, s.status, name) && kube in s.policies
    requires (kube == name <==> policy == name) && t == AfterTouch(c, n, policy, kube, s)
    ensures HandStep(c, listed, policy, s, t, name)
    ensures policy == name && !t.err ==> c.key in t.policies[name].managed
  {
  }

  lemma HandCreate(c: Pass, listed: seq<string>, n: nat, policy: string, s: State, t: State, name: string)
    requires name in s.policies && HandWritten(c, listed, s.status, name) && policy in listed
    requires policy != name && t == AfterCreate(c, n, policy, s)
    ensures HandStep(c, listed, policy, s, t, name)
  {
    forall x | x in s.status.mapping[policy := GeneratedName(policy, c.key)].Values
      ensures x == GeneratedName(policy, c.key) || x in s.status.mapping.Values
    {
    }
  }

  lemma HandAdd(c: Pass, listed: seq<string>, n: nat, policy: string, s: State, t: State, name: string)
    requires name in s.policies && HandWritten(c, listed, s.status, name) && policy in listed
    requires t == AfterAdd(c, n, policy, s)
    ensures HandStep(c, listed, policy, s, t, name)
    ensures policy == name && !t.err ==> c.key in t.policies[name].managed
  {
    if policy in s.status.mapping {
      assert s.status.mapping[policy] in s.status.mapping.Values;
    }
    var kube := KubeName(s.status, policy);
    if s.err || Get(n) in c.down {
    } else if kube in s.policies {
      HandTouch(c, listed, n, policy, kube, s, t, name);
    } else if c.allowAuto {
      var made := AfterCreate(c, n, policy, s);
      HandCreate(c, listed, n, policy, s, made, name);
      if !made.err {
        HandTouch(c, listed, n, policy, GeneratedName(policy, c.key), made, t, name);
      }
    }
  }

  ghost predicate HandAdded(c: Pass, list: seq<string>, n: nat, s: State, t: State, name: string)
    requires n <= |list| && name in s.policies
  {
    && name in t.policies && HandWritten(c, list, t.status, name)
    && ManagedMoves(c.key, s.policies[name], t.policies[name])
    && (c.key in s.policies[name].managed ==> c.key in t.policies[name].managed)
    && (name !in list[..n] ==> t.policies[name] == s.policies[name])
    && (name in list[..n] && !t.err ==> c.key in t.policies[name].managed)
    && t.status.policyName == s.status.policyName
  }

  lemma HandCompose(c: Pass, list: seq<string>, n: nat, s: State, u: State, t: State, name: string)
    requires 0 < n <= |list| && name in s.policies
    requires HandAdded(c, list, n - 1, s, u, name) && HandStep(c, list, list[n - 1], u, t, name)
    requires u.err ==> t == u
    requires list[n - 1] == name && !t.err ==> c.key in t.policies[name].managed
    ensures HandAdded(c, list, n, s, t, name)
  {
    assert list[..n] == list[..n - 1] + [list[n - 1]];
  }

  lemma {:induction false} HandAdds(c: Pass, list: seq<string>, n: nat, s: State, name: string)
    requires n <= |list| && name in s.policies && HandWritten(c, list, s.status, name)
    ensures HandAdded(c, list, n, s, AfterAdds(c, list, n, s), name)
  {
    if n > 0 {
      HandAdds(c, list, n - 1, s, name);
      var u, t := AfterAdds(c, list, n - 1, s), AfterAdds(c, list, n, s);
      assert t == AfterAdd(c, n - 1, list[n - 1], u) && (u.err ==> t == u);
      HandAdd(c, list, n - 1, list[n - 1], u, t, name);
      HandCompose(c, list, n, s, u, t, name);
    }
  }

  lemma HandRemove(c: Pass, n: nat, policy: string, kept: seq<string>, s: State, t: State, name: string)
    requires name in s.policies && HandWritten(c, kept, s.status, name) && t == AfterRemove(c, n, policy, kept, s)
    ensures name in t.policies && HandWritten(c, kept, t.status, name)
    ensures ManagedMoves(c.key, s.policies[name], t.policies[name])
    ensures policy != name || policy in kept ==> t.policies[name] == s.policies[name]
    ensures c.key in t.policies[name].managed ==> c.key in s.policies[name].managed
    ensures policy == name && policy !in kept && !t.err ==> c.key !in t.policies[name].managed
    ensures t.status.policyName == s.status.policyName
  {
    if policy in s.status.mapping {
      assert s.status.mapping[policy] in s.status.mapping.Values;
    }
    forall k ensures k in Drop(s.policies[name].managed, {c.key}) <==> k in s.policies[name].managed && k !in {c.key} {
      DropMembers(s.policies[name].managed, {c.key}, k);
    }
  }

  lemma {:induction false} HandRemoves(c: Pass, list: seq<string>, kept: seq<string>, n: nat, s: State, name: string)
    requires n <= |list| && name in s.policies && HandWritten(c, kept, s.status, name)
    ensures var t := AfterRemoves(c, list, kept, n, s);
            && name in t.policies && HandWritten(c, kept, t.status, name)
            && ManagedMoves(c.key, s.policies[name], t.policies[name])
            && (name !in list[..n] || name in kept ==> t.policies[name] == s.policies[name])
            && (c.key in t.policies[name].managed ==> c.key in s.policies[name].managed)
            && (name in list[..n] && name !in kept && !t.err ==> c.key !in t.policies[name].managed)
            && t.status.policyName == s.status.policyName
  {
    if n > 0 {
      HandRemoves(c, list, kept, n - 1, s, name);
      var u, t := AfterRemoves(c, list, kept, n - 1, s), AfterRemoves(c, list, kept, n, s);
      HandRemove(c, n - 1, list[n - 1], kept, u, t, name);
      assert list[..n] == list[..n - 1] + [list[n - 1]];
    }
  }

  /** A pass, successful or not, moves nothing but its own key in a hand-written policy. */
  lemma HandPolicy(c: Pass, s: State, t: State, name: string)
    requires !s.err && name in s.policies && t == AfterPolicy(c, s)
    requires HandWritten(c, Names(c.spec.policyName, ','), s.status, name)
    ensures name in t.policies && HandWritten(c, Names(c.spec.policyName, ','), t.status, name)
    ensures ManagedMoves(c.key, s.policies[name], t.policies[name])
    ensures name in Names(c.spec.policyName, ',') && c.key in s.policies[name].managed ==>
            c.key in t.policies[name].managed
    ensures name in Names(c.spec.policyName, ',') && !t.err ==> c.key in t.policies[name].managed
    ensures name !in Names(c.spec.policyName, ',') && name in StatusList(s.status) && !t.err ==>
            c.key !in t.policies[name].managed
  {
    var listed, recorded := Names(c.spec.policyName, ','), StatusList(s.status);
    HandAdds(c, listed, |listed|, s, name);
    var u := AfterAdds(c, listed, |listed|, s);
    HandRemoves(c, recorded, listed, |recorded|, u, name);
    assert listed[..|listed|] == listed && recorded[..|recorded|] == recorded;
    if u.err {
      RemovesStop(c, recorded, listed, |recorded|, u);
    }
  }
}
