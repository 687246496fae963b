// What a handlePolicy pass makes of the policies mapped to a resource, spelled out from its spec: the generated ones
// and those it brings back in line.
module MappedPolicies {
  import opened KeyNames
  import opened PolicyObjects
  import opened Registration
  import opened RegistrationDiff
  import opened Slices
  import opened Tables

  /** The object says what the resource's spec asks for. */
  ghost predicate AsAsked(c: Pass, policy: string, p: Policy) {
    && p.generatedBy == c.key.ns + "/" + c.key.name
    && p.spec.description == "Generated by " + c.key.ns + "/" + c.key.name
    && p.spec.name == (if policy in c.spec.friendly then c.spec.friendly[policy]
                       else "Autogenerated policy for resource " + c.key.ns + "/" + c.key.name
                            + " in cluster " + c.cluster)
    && |p.spec.sources| == |c.spec.policySources| && forall g :: g in c.spec.policySources ==> g in p.spec.sources
  }

  /** The rest of the spec is p's. */
  ghost predicate SameRest(p: Policy, q: Policy) {
    && q.spec.destinations == p.spec.destinations && q.spec.protocols == p.spec.protocols
    && q.spec.ports == p.spec.ports && q.spec.bidirectional == p.spec.bidirectional
  }

  /** The rest of a generated spec: every protocol, no ports or destinations of its own, both directions. */
  ghost predicate FreshRest(q: Policy) {
    q.spec.destinations == [] && q.spec.protocols == [] && q.spec.ports == [] && q.spec.bidirectional
  }

  /** Object x after the step for `policy`, when policy is mapped to it. */
  ghost predicate Asked(c: Pass, policy: string, s: State, t: State, x: string) {
    policy in t.status.mapping && t.status.mapping[policy] == x && x in t.policies ==>
      && AsAsked(c, policy, t.policies[x])
      && (if KubeName(s.status, policy) in s.policies
          then KubeName(s.status, policy) == x && SameRest(s.policies[x], t.policies[x])
          else x == policy + "-" + c.key.ns + "-" + c.key.name && FreshRest(t.policies[x]))
  }

  lemma CorrectedIsAsked(c: Pass, policy: string, p: Policy)
    ensures AsAsked(c, policy, Corrected(c, policy, p)) && SameRest(p, Corrected(c, policy, p))
  {
    assert Print(c.key) == c.key.ns + "/" + c.key.name;
    assert Description(c) == "Generated by " + c.key.ns + "/" + c.key.name;
  }

  lemma AskedIsCorrect(c: Pass, policy: string, p: Policy)
    requires AsAsked(c, policy, p)
    ensures Corrected(c, policy, p) == p
  {
    assert Print(c.key) == c.key.ns + "/" + c.key.name;
    assert Description(c) == "Generated by " + c.key.ns + "/" + c.key.name;
  }

  lemma TouchAsks(c: Pass, n: nat, policy: string, name: string, s: State)
    requires name in s.policies && policy in s.status.mapping
    ensures var t := AfterTouch(c, n, policy, name, s);
            !t.err ==>
              name in t.policies && AsAsked(c, policy, t.policies[name]) && SameRest(s.policies[name], t.policies[name])
  {
    CorrectedIsAsked(c, policy, s.policies[name]);
  }

  lemma CreateIsFresh(c: Pass, n: nat, policy: string, s: State)
    ensures var t := AfterCreate(c, n, policy, s);
            var name := policy + "-" + c.key.ns + "-" + c.key.name;
            !t.err ==> name == GeneratedName(policy, c.key) && name in t.policies && FreshRest(t.policies[name])
                       && policy in t.status.mapping && t.status.mapping[policy] == name
  {
  }

  lemma AddAsks(c: Pass, n: nat, policy: string, s: State, t: State, x: string)
    requires t == AfterAdd(c, n, policy, s) && !t.err
    ensures Asked(c, policy, s, t, x)
  {
    var name := KubeName(s.status, policy);
    if name in s.policies {
      if policy in s.status.mapping {
        TouchAsks(c, n, policy, name, s);
      }
    } else if c.allowAuto {
      var made := AfterCreate(c, n, policy, s);
      CreateIsFresh(c, n, policy, s);
      TouchAsks(c, n, policy, GeneratedName(policy, c.key), made);
    }
  }

  // ----- whole passes -----

  /** No other listed policy leads to object x. */
  ghost predicate Unshared(c: Pass, listed: seq<string>, s: State, p: string, x: string) {
    forall q :: q in listed && q != p ==> KubeName(s.status, q) != x && GeneratedName(q, c.key) != x
  }

  /** Where the walk stands with p and its object x after n policies. */
  ghost predicate Stands(c: Pass, listed: seq<string>, n: nat, s: State, t: State, p: string, x: string)
    requires n <= |listed|
  {
    if p in listed[..n] then Asked(c, p, s, t, x)
    else
      && (p in t.status.mapping <==> p in s.status.mapping)
      && (p in s.status.mapping ==> t.status.mapping[p] == s.status.mapping[p])
      && (x in t.policies <==> x in s.policies) && (x in s.policies ==> t.policies[x] == s.policies[x])
  }

  /** A step of another policy. */
  lemma OtherStands(c: Pass, listed: seq<string>, n: nat, s: State, u: State, t: State, p: string, x: string)
    requires 0 < n <= |listed| && listed[n - 1] != p && Unshared(c, listed, s, p, x)
    requires Added(c, listed, n - 1, s, u) && AddStep(c, listed[n - 1], u, t) && Stands(c, listed, n - 1, s, u, p, x)
    ensures Stands(c, listed, n, s, t, p, x)
  {
    var q := listed[n - 1];
    assert listed[..n] == listed[..n - 1] + [q];
    assert q in listed && KubeName(t.status, q) != x;
    assert p in t.status.mapping <==> p in u.status.mapping;
    assert x in u.policies ==> x in t.policies && t.policies[x] == u.policies[x];
  }

  /** A first or later step of p itself. */
  lemma OwnStands(c: Pass, listed: seq<string>, n: nat, s: State, u: State, t: State, p: string, x: string)
    requires 0 < n <= |listed| && listed[n - 1] == p && Unshared(c, listed, s, p, x)
    requires t == AfterAdd(c, n - 1, p, u) && !t.err
    requires Added(c, listed, n - 1, s, u) && Stands(c, listed, n - 1, s, u, p, x)
    ensures Stands(c, listed, n, s, t, p, x)
  {
    assert listed[..n] == listed[..n - 1] + [p];
    AddAsks(c, n - 1, p, u, t, x);
    AddIsStep(c, n - 1, p, u, t);
    if p in t.status.mapping && t.status.mapping[p] == x && x in t.policies {
      var k := KubeName(u.status, p);
      assert k in u.policies ==> k == x;
      if p in listed[..n - 1] {
        LaterStep(c, listed, n, s, u, t, p, x);
      }
    }
  }

  /** A repeated p finds what its first step left. */
  lemma LaterStep(c: Pass, listed: seq<string>, n: nat, s: State, u: State, t: State, p: string, x: string)
    requires 0 < n <= |listed| && p in listed[..n - 1] && Asked(c, p, s, u, x) && Asked(c, p, u, t, x)
    requires Added(c, listed, n - 1, s, u) && AddStep(c, p, u, t) && t == AfterAdd(c, n - 1, p, u) && !t.err
    requires p in t.status.mapping && t.status.mapping[p] == x && x in t.policies
    ensures Asked(c, p, s, t, x)
  {
    if c.allowAuto {
      var j :| 0 <= j < n - 1 && listed[..n - 1][j] == p;
      assert KubeName(u.status, listed[j]) in u.policies;
    }
    assert KubeName(u.status, p) in u.policies;
    assert KubeName(u.status, p) == x;
  }

  lemma {:induction false} WalkStands(c: Pass, listed: seq<string>, n: nat, s: State, p: string, x: string)
    requires n <= |listed| && !AfterAdds(c, listed, n, s).err && Unshared(c, listed, s, p, x)
    ensures Stands(c, listed, n, s, AfterAdds(c, listed, n, s), p, x)
  {
    if n > 0 {
      var u, t := AfterAdds(c, listed, n - 1, s), AfterAdds(c, listed, n, s);
      assert t == AfterAdd(c, n - 1, listed[n - 1], u);
      AddIsStep(c, n - 1, listed[n - 1], u, t);
      AddsRegister(c, listed, n - 1, s);
      WalkStands(c, listed, n - 1, s, p, x);
      if listed[n - 1] == p {
        OwnStands(c, listed, n, s, u, t, p, x);
      } else {
        OtherStands(c, listed, n, s, u, t, p, x);
      }
    }
  }

  /** The removing walk leaves specs and annotations alone. */
  ghost predicate SameSpecs(s: State, t: State) {
    forall x :: x in t.policies ==>
      && x in s.policies && t.policies[x].spec == s.policies[x].spec
      && t.policies[x].generatedBy == s.policies[x].generatedBy
  }

  lemma {:induction false} RemovesKeepSpecs(c: Pass, list: seq<string>, kept: seq<string>, n: nat, s: State)
    requires n <= |list|
    ensures SameSpecs(s, AfterRemoves(c, list, kept, n, s))
  {
    if n > 0 {
      var u, t := AfterRemoves(c, list, kept, n - 1, s), AfterRemoves(c, list, kept, n, s);
      RemovesKeepSpecs(c, list, kept, n - 1, s);
      RemoveKeepsSpecs(c, n - 1, list[n - 1], kept, u, t);
      SameSpecsTwice(s, u, t);
    }
  }

  lemma SameSpecsTwice(s: State, u: State, t: State)
    requires SameSpecs(s, u) && SameSpecs(u, t)
    ensures SameSpecs(s, t)
  {
  }

  lemma RemoveKeepsSpecs(c: Pass, n: nat, policy: string, kept: seq<string>, s: State, t: State)
    requires t == AfterRemove(c, n, policy, kept, s)
    ensures SameSpecs(s, t)
  {
  }

  /** After a successful pass, the object a listed policy is mapped to, if no other listed policy shares it, says
      what the resource's spec asks for: annotation, friendly or automatic name, description and source groups. The
      rest of its spec is as it was, or that of a fresh policy if the pass made or adopted it. */
  lemma MappedAsAsked(c: Pass, s: State, t: State, p: string)
    requires !s.err && t == AfterPolicy(c, s) && !t.err
    requires s.status.policyName.Some? || c.spec.policyName != ""
    requires p in Names(c.spec.policyName, ',') && p in t.status.mapping && t.status.mapping[p] in t.policies
    requires Unshared(c, Names(c.spec.policyName, ','), s, p, t.status.mapping[p])
    ensures var x := t.status.mapping[p];
            && AsAsked(c, p, t.policies[x])
            && (if KubeName(s.status, p) in s.policies
                then KubeName(s.status, p) == x && SameRest(s.policies[x], t.policies[x])
                else x == p + "-" + c.key.ns + "-" + c.key.name && FreshRest(t.policies[x]))
  {
    var listed, recorded := Names(c.spec.policyName, ','), StatusList(s.status);
    var x := t.status.mapping[p];
    var u, v := PassHalves(c, s, t);
    if u.err {
      RemovesStop(c, recorded, listed, |recorded|, u);
    }
    WalkStands(c, listed, |listed|, s, p, x);
    assert listed[..|listed|] == listed;
    RemovesKeepSpecs(c, recorded, listed, |recorded|, u);
    assert p in u.status.mapping && u.status.mapping[p] == x;
  }

  /** A policy the pass made anew carries the cleanup finalizer, is recorded under its generated name, and names no
      remote policy yet. */
  lemma MadeAnew(c: Pass, n: nat, policy: string, s: State)
    requires policy + "-" + c.key.ns + "-" + c.key.name !in s.policies && !AfterCreate(c, n, policy, s).err
    ensures var t := AfterCreate(c, n, policy, s);
            var name := policy + "-" + c.key.ns + "-" + c.key.name;
            && name in t.policies && t.policies[name].finalizers == ["openzro.io/cleanup"]
            && !t.policies[name].deleting && t.policies[name].managed == [c.key]
            && t.policies[name].tcpId == None && t.policies[name].udpId == None
            && t.status.mapping == s.status.mapping[policy := name]
            && t.status.policySources == c.spec.policySources && t.status.friendly == c.spec.friendly
  {
  }

  /** Generation needs source groups: without them, or when the object cannot be made or written, the pass fails. */
  lemma CreateFailsExactlyWhen(c: Pass, n: nat, policy: string, s: State)
    requires !s.err
    ensures AfterCreate(c, n, policy, s).err <==>
            || c.spec.policySources == [] || Create(n) in c.down || WriteGenerated(n) in c.down
            || (policy + "-" + c.key.ns + "-" + c.key.name in s.policies
                && (GetGenerated(n) in c.down || UpdateGenerated(n) in c.down))
  {
  }

  /** Whether made or taken over, a generated policy says what the spec asks for, an empty friendly name counting as
      none; one taken over keeps its finalizers and what it records, and gets the key appended. */
  lemma GeneratedSays(c: Pass, n: nat, policy: string, s: State)
    requires !AfterCreate(c, n, policy, s).err
    ensures var name := policy + "-" + c.key.ns + "-" + c.key.name;
            && name in AfterCreate(c, n, policy, s).policies
            && var q := AfterCreate(c, n, policy, s).policies[name];
            && q.generatedBy == c.key.ns + "/" + c.key.name && FreshRest(q)
            && q.spec.description == "Generated by " + c.key.ns + "/" + c.key.name
            && q.spec.sources == c.spec.policySources
            && q.spec.name == (if policy in c.spec.friendly && c.spec.friendly[policy] != ""
                               then c.spec.friendly[policy]
                               else "Autogenerated policy for resource " + c.key.ns + "/" + c.key.name
                                    + " in cluster " + c.cluster)
            && (name in s.policies ==>
                  q == s.policies[name].(spec := q.spec, generatedBy := q.generatedBy,
                                         managed := s.policies[name].managed + [c.key]))
  {
    GeneratedSpecSays(c, policy);
    CreateStores(c, n, policy, s);
  }

  lemma GeneratedSpecSays(c: Pass, policy: string)
    ensures var spec := GeneratedSpec(c, policy);
            && Print(c.key) == c.key.ns + "/" + c.key.name
            && spec == PolicySpec(spec.name, "Generated by " + c.key.ns + "/" + c.key.name, c.spec.policySources,
                                  [], [], [], true)
            && spec.name == if policy in c.spec.friendly && c.spec.friendly[policy] != "" then c.spec.friendly[policy]
                            else "Autogenerated policy for resource " + c.key.ns + "/" + c.key.name
                                 + " in cluster " + c.cluster
  {
    assert Description(c) == "Generated by " + c.key.ns + "/" + c.key.name;
  }

  lemma CreateStores(c: Pass, n: nat, policy: string, s: State)
    requires !AfterCreate(c, n, policy, s).err
    ensures var name := policy + "-" + c.key.ns + "-" + c.key.name;
            && name in AfterCreate(c, n, policy, s).policies
            && var q := AfterCreate(c, n, policy, s).policies[name];
            && q.spec == GeneratedSpec(c, policy) && q.generatedBy == Print(c.key)
            && (name in s.policies ==>
                  q == s.policies[name].(spec := q.spec, generatedBy := q.generatedBy,
                                         managed := s.policies[name].managed + [c.key]))
  {
    assert GeneratedName(policy, c.key) == policy + "-" + c.key.ns + "-" + c.key.name;
  }

  /** Bringing an existing policy in line: the pass errs exactly when a call it needs fails. The spec is written only
      for a mapped policy that differs from what is asked; the status only when the key is missing from the managed
      list or the recorded ports or groups differ from those of the spec. */
  lemma TouchFailsExactlyWhen(c: Pass, n: nat, policy: string, name: string, s: State)
    requires name in s.policies && !s.err
    ensures var p := s.policies[name];
            AfterTouch(c, n, policy, name, s).err <==>
            || (policy in s.status.mapping && !AsAsked(c, policy, p) && Update(n) in c.down)
            || ((c.key !in p.managed || Stale(c, s.status)) && Write(n) in c.down)
  {
    CorrectedIsAsked(c, policy, s.policies[name]);
    if AsAsked(c, policy, s.policies[name]) {
      AskedIsCorrect(c, policy, s.policies[name]);
    }
    StaleExactlyWhen(c, s.status);
  }

  /** What a failing pass leaves: the policy as it was, or its spec in line and its managed list as it was. The
      working copy of the status is up to date either way. */
  lemma FailedTouchLeaves(c: Pass, n: nat, policy: string, name: string, s: State)
    requires name in s.policies && !s.err
    ensures var t := AfterTouch(c, n, policy, name, s);
            && RecordsSpec(c, s.status, t.status) && t.status.mapping == s.status.mapping
            && (t.err ==>
                  || t.policies == s.policies
                  || (policy in s.status.mapping && Update(n) !in c.down && name in t.policies
                      && t.policies == s.policies[name := t.policies[name]]
                      && AsAsked(c, policy, t.policies[name]) && t.policies[name].managed == s.policies[name].managed))
  {
    CorrectedIsAsked(c, policy, s.policies[name]);
    var t := AfterTouch(c, n, policy, name, s);
    if t.err && !(policy in s.status.mapping && Update(n) !in c.down) {
      assert t.policies == s.policies;
    }
  }

  // ----- what the status records -----

  /** The recorded ports after a pass that touched a policy: the spec's, or a list the comparison took for them. */
  ghost predicate RecordsPorts(spec: seq<int>, before: seq<int>, after: seq<int>) {
    || after == spec
    || (after == before && |spec| == |before| && forall v :: v in before ==> v in spec)
  }

  /** The lists differ in length, or y has a member that x lacks. */
  ghost predicate Differ<T>(x: seq<T>, y: seq<T>) {
    |x| != |y| || exists v :: v in y && v !in x
  }

  /** A recorded list differs from the one it is compared with. */
  ghost predicate Stale(c: Pass, s: ResourceStatus) {
    || Differ(c.spec.tcpPorts, s.tcpPorts) || Differ(c.spec.udpPorts, s.udpPorts) || Differ(s.groups, c.groupIds)
  }

  lemma StaleExactlyWhen(c: Pass, s: ResourceStatus)
    ensures SyncedStatus(c, s) != s <==> Stale(c, s)
  {
  }

  ghost predicate SameRecord(s: ResourceStatus, t: ResourceStatus) {
    t.tcpPorts == s.tcpPorts && t.udpPorts == s.udpPorts && t.groups == s.groups
  }

  ghost predicate RecordsSpec(c: Pass, s: ResourceStatus, t: ResourceStatus) {
    && RecordsPorts(c.spec.tcpPorts, s.tcpPorts, t.tcpPorts) && RecordsPorts(c.spec.udpPorts, s.udpPorts, t.udpPorts)
    && (t.groups == c.groupIds || (t.groups == s.groups && |s.groups| == |c.groupIds|
                                   && forall g :: g in c.groupIds ==> g in s.groups))
  }

  lemma AddRecords(c: Pass, n: nat, policy: string, s: State, t: State)
    requires t == AfterAdd(c, n, policy, s) && !t.err
    ensures if Touches(c, policy, s) then RecordsSpec(c, s.status, t.status) else SameRecord(s.status, t.status)
  {
  }

  lemma RecordsTwice(c: Pass, s: ResourceStatus, u: ResourceStatus, t: ResourceStatus)
    requires (RecordsSpec(c, s, u) || SameRecord(s, u)) && RecordsSpec(c, u, t)
    ensures RecordsSpec(c, s, t)
  {
  }

  lemma {:induction false} AddsRecord(c: Pass, list: seq<string>, n: nat, s: State)
    requires n <= |list| && !AfterAdds(c, list, n, s).err
    ensures var t := AfterAdds(c, list, n, s);
            if TouchedBy(c, list, n, s) then RecordsSpec(c, s.status, t.status) else SameRecord(s.status, t.status)
  {
    if n > 0 {
      var u, t := AfterAdds(c, list, n - 1, s), AfterAdds(c, list, n, s);
      assert t == AfterAdd(c, n - 1, list[n - 1], u);
      AddRecords(c, n - 1, list[n - 1], u, t);
      AddsRecord(c, list, n - 1, s);
      if Touches(c, list[n - 1], u) {
        RecordsTwice(c, s.status, u.status, t.status);
      }
    }
  }

  lemma {:induction false} RemovesKeepRecord(c: Pass, list: seq<string>, kept: seq<string>, n: nat, s: State)
    requires n <= |list|
    ensures SameRecord(s.status, AfterRemoves(c, list, kept, n, s).status)
  {
    if n > 0 {
      RemovesKeepRecord(c, list, kept, n - 1, s);
    }
  }

  /** A successful pass that found or made one of its policies records the spec's ports and the resolved groups, up
      to length and membership; any other leaves the record alone. */
  lemma PassRecordsSpec(c: Pass, s: State, t: State)
    requires !s.err && t == AfterPolicy(c, s) && !t.err
    requires s.status.policyName.Some? || c.spec.policyName != ""
    ensures var listed := Names(c.spec.policyName, ',');
            if TouchedBy(c, listed, |listed|, s) then RecordsSpec(c, s.status, t.status)
            else SameRecord(s.status, t.status)
  {
    var listed, recorded := Names(c.spec.policyName, ','), StatusList(s.status);
    var u := AfterAdds(c, listed, |listed|, s);
    if u.err {
      RemovesStop(c, recorded, listed, |recorded|, u);
    }
    AddsRecord(c, listed, |listed|, s);
    RemovesKeepRecord(c, recorded, listed, |recorded|, u);
  }
}
