// OZResource.handlePolicy: a resource registers itself in the managed list of every policy it names
// and withdraws from those it no longer names (internal/controller/ozresource_controller.go:137-372).
module Registration {
  import opened Finalizers
  import opened KeyNames
  import opened PolicyObjects
  import opened Slices
  import opened Tables

  /** The API calls of handlePolicy; n is the position of the policy in the list being walked. */
  datatype Call =
    | Get(n: nat) | Create(n: nat) | GetGenerated(n: nat) | UpdateGenerated(n: nat) | WriteGenerated(n: nat)
    | Update(n: nat) | Write(n: nat)
    | GetRemoved(n: nat) | Delete(n: nat) | WriteRemoved(n: nat)

  /** What one pass over one resource reads but does not change. `down` holds the calls that fail. */
  datatype Pass = Pass(
    key: Key,
    spec: ResourceSpec,
    allowAuto: bool,
    cluster: string,
    groupIds: seq<string>,
    down: set<Call>)

  /** Cluster policies, the in-memory status of the resource, and whether an error has been returned. */
  datatype State = State(policies: map<string, Policy>, status: ResourceStatus, err: bool)

  function KubeName(status: ResourceStatus, policy: string): string {
    if policy in status.mapping then status.mapping[policy] else policy
  }

  function AutoName(c: Pass): string {
    "Autogenerated policy for resource " + c.key.ns + "/" + c.key.name + " in cluster " + c.cluster
  }

  function Description(c: Pass): string {
    "Generated by " + Print(c.key)
  }

  /** The spec handlePolicyCreate gives a generated policy. */
  function GeneratedSpec(c: Pass, policy: string): PolicySpec {
    var friendly := if policy in c.spec.friendly then c.spec.friendly[policy] else "";
    PolicySpec(if friendly == "" then AutoName(c) else friendly, Description(c), c.spec.policySources, [], [], [], true)
  }

  function AfterCreate(c: Pass, n: nat, policy: string, s: State): State {
    var name := GeneratedName(policy, c.key);
    if c.spec.policySources == [] || Create(n) in c.down then s.(err := true)
    else if name in s.policies && (GetGenerated(n) in c.down || UpdateGenerated(n) in c.down) then s.(err := true)
    else
      var made :=
        if name in s.policies
        then s.policies[name].(spec := GeneratedSpec(c, policy), generatedBy := Print(c.key))
        else Policy(GeneratedSpec(c, policy), Print(c.key), [CLEANUP], false, [], None, None);
      var status := s.status.(mapping := s.status.mapping[policy := name],
                              policySources := c.spec.policySources, friendly := c.spec.friendly);
      if WriteGenerated(n) in c.down
      then State(s.policies[name := made], status, true)
      else State(s.policies[name := made.(managed := made.managed + [c.key])], status, s.err)
  }

  function SyncedStatus(c: Pass, status: ResourceStatus): ResourceStatus {
    status.(tcpPorts := if Covers(c.spec.tcpPorts, status.tcpPorts) then status.tcpPorts else c.spec.tcpPorts,
            udpPorts := if Covers(c.spec.udpPorts, status.udpPorts) then status.udpPorts else c.spec.udpPorts,
            groups := if Covers(status.groups, c.groupIds) then status.groups else c.groupIds)
  }

  /** The recorded groups become the resolved ones exactly when they differ in length or membership, or were
      the same list already; without repeats among the resolved ones they agree up to order in any case. */
  lemma RecordedGroupsExactlyWhen(c: Pass, status: ResourceStatus)
    ensures SyncedStatus(c, status).groups == c.groupIds <==>
            !Covers(status.groups, c.groupIds) || status.groups == c.groupIds
    ensures NoRepeats(c.groupIds) ==> multiset(SyncedStatus(c, status).groups) == multiset(c.groupIds)
  {
    if NoRepeats(c.groupIds) && Covers(status.groups, c.groupIds) {
      DistinctIsSmallest(status.groups, c.groupIds);
    }
  }

  /** A repeated resolved group hides a stale one. */
  lemma StaleGroupKept(c: Pass, status: ResourceStatus, x: string, y: string)
    requires x != y && status.groups == [x, y] && c.groupIds == [x, x]
    ensures y in SyncedStatus(c, status).groups && y !in c.groupIds
  {
  }

  /** The spec and annotation a mapped policy is brought back to. */
  function Corrected(c: Pass, policy: string, p: Policy): Policy {
    p.(generatedBy := Print(c.key),
       spec := p.spec.(
         name := if policy in c.spec.friendly then c.spec.friendly[policy] else AutoName(c),
         description := Description(c),
         sources := if Covers(p.spec.sources, c.spec.policySources) then p.spec.sources else c.spec.policySources))
  }

  function Enlisted(c: Pass, p: Policy): Policy {
    p.(managed := if c.key in p.managed then p.managed else p.managed + [c.key])
  }

  /** The policy needs a spec update before its status is written. */
  predicate Outdated(c: Pass, policy: string, status: ResourceStatus, p: Policy) {
    policy in status.mapping && Corrected(c, policy, p) != p
  }

  /** handlePolicyAddUpdate once the policy object exists under `name`. A spec update reads the stored status
      back into the working copy, so a pending entry in the managed list is lost with it. */
  function AfterTouch(c: Pass, n: nat, policy: string, name: string, s: State): State
    requires name in s.policies
  {
    var p := s.policies[name];
    var status := SyncedStatus(c, s.status);
    var q := if policy in s.status.mapping then Corrected(c, policy, p) else p;
    if q != p && Update(n) in c.down then State(s.policies, status, true)
    else if (Enlisted(c, p) != p || status != s.status) && Write(n) in c.down
    then State(s.policies[name := q], status, true)
    else State(s.policies[name := if q != p then q else Enlisted(c, p)], status, s.err)
  }

  function AfterAdd(c: Pass, n: nat, policy: string, s: State): State {
    var name := KubeName(s.status, policy);
    if s.err then s
    else if Get(n) in c.down then s.(err := true)
    else if name in s.policies then AfterTouch(c, n, policy, name, s)
    else if !c.allowAuto then s
    else
      var made := AfterCreate(c, n, policy, s);
      if made.err then made else AfterTouch(c, n, policy, GeneratedName(policy, c.key), made)
  }

  function AfterRemove(c: Pass, n: nat, policy: string, kept: seq<string>, s: State): State {
    var name := KubeName(s.status, policy);
    if s.err || policy in kept then s
    else if GetRemoved(n) in c.down then s.(err := true)
    else if name !in s.policies then s
    else if policy in s.status.mapping then
      if Delete(n) in c.down then s.(err := true)
      else
        // an object with finalizers is only marked; one without disappears
        State(if s.policies[name].finalizers == [] then s.policies - {name}
              else s.policies[name := s.policies[name].(deleting := true)],
              s.status.(mapping := s.status.mapping - {policy}), s.err)
    else if c.key in s.policies[name].managed then
      if WriteRemoved(n) in c.down then s.(err := true)
      else s.(policies := s.policies[name := s.policies[name].(managed := Drop(s.policies[name].managed, {c.key}))])
    else s
  }

  function AfterAdds(c: Pass, list: seq<string>, n: nat, s: State): State
    requires n <= |list|
  {
    if n == 0 then s else AfterAdd(c, n - 1, list[n - 1], AfterAdds(c, list, n - 1, s))
  }

  function AfterRemoves(c: Pass, list: seq<string>, kept: seq<string>, n: nat, s: State): State
    requires n <= |list|
  {
    if n == 0 then s else AfterRemove(c, n - 1, list[n - 1], kept, AfterRemoves(c, list, kept, n - 1, s))
  }

  function StatusList(status: ResourceStatus): seq<string> {
    match status.policyName
    case None => []
    case Some(v) => Names(v, ',')
  }

  function AfterPolicy(c: Pass, s: State): State {
    if s.status.policyName.None? && c.spec.policyName == "" then s
    else
      var listed := Names(c.spec.policyName, ',');
      var recorded := StatusList(s.status);
      var t := AfterRemoves(c, recorded, listed, |recorded|, AfterAdds(c, listed, |listed|, s));
      if t.err then t else t.(status := t.status.(policyName := Some(c.spec.policyName)))
  }

  /** The stores handlePolicy changes: the cluster's policies and its working copy of the resource status. */
  class ResourcePolicies {
    var policies: map<string, Policy>
    var status: ResourceStatus

    constructor (policies: map<string, Policy>, status: ResourceStatus)
      ensures this.policies == policies && this.status == status
    {
      this.policies, this.status := policies, status;
    }

    method HandlePolicyCreate(c: Pass, n: nat, policy: string) returns (err: bool)
      modifies this
      ensures State(policies, status, err) == AfterCreate(c, n, policy, State(old(policies), old(status), false))
    {
      if |c.spec.policySources| == 0 {
        return true;
      }
      var name := "";
      if policy in c.spec.friendly {
        name := c.spec.friendly[policy];
      }
      if name == "" {
        name := AutoName(c);
      }
      var generatedName := GeneratedName(policy, c.key);
      var spec := PolicySpec(name, Description(c), c.spec.policySources, [], [], [], true);
      if Create(n) in c.down {
        return true;
      }
      var nbPolicy: Policy;
      if generatedName in policies {
        if GetGenerated(n) in c.down {
          return true;
        }
        nbPolicy := policies[generatedName].(generatedBy := Print(c.key), spec := spec);
        if UpdateGenerated(n) in c.down {
          return true;
        }
      } else {
        nbPolicy := Policy(spec, Print(c.key), [CLEANUP], false, [], None, None);
      }
      policies := policies[generatedName := nbPolicy];
      status := status.(mapping := status.mapping[policy := generatedName]);
      status := status.(policySources := c.spec.policySources);
      status := status.(friendly := c.spec.friendly);
      if WriteGenerated(n) in c.down {
        return true;
      }
      policies := policies[generatedName := nbPolicy.(managed := nbPolicy.managed + [c.key])];
      return false;
    }

    method HandlePolicyAddUpdate(c: Pass, n: nat, policy: string) returns (err: bool)
      modifies this
      ensures State(policies, status, err) == AfterAdd(c, n, policy, State(old(policies), old(status), false))
    {
      var name := policy;
      if policy in status.mapping {
        name := status.mapping[policy];
      }
      if Get(n) in c.down {
        return true;
      }
      if name !in policies {
        if !c.allowAuto {
          return false;
        }
        err := HandlePolicyCreate(c, n, policy);
        if err {
          return true;
        }
        name := GeneratedName(policy, c.key);
      }
      err := Touch(c, n, policy, name);
    }

    /** The second half of handlePolicyAddUpdate, for a policy object that exists. */
    method Touch(c: Pass, n: nat, policy: string, name: string) returns (err: bool)
      requires name in policies
      modifies this
      ensures State(policies, status, err) == AfterTouch(c, n, policy, name, State(old(policies), old(status), false))
    {
      var nbPolicy := policies[name];
      var writeStatus := SyncStatus(c);
      var managed := nbPolicy.managed;
      if c.key !in managed {
        managed := managed + [c.key];
        writeStatus := true;
      }
      if policy in status.mapping {
        var writeSpec;
        nbPolicy, writeSpec := Correct(c, policy, nbPolicy);
        if writeSpec {
          if Update(n) in c.down {
            return true;
          }
          policies := policies[name := nbPolicy];
          // the answer to the update carries the stored status
          managed := nbPolicy.managed;
        }
      }
      if writeStatus {
        if Write(n) in c.down {
          return true;
        }
        policies := policies[name := nbPolicy.(managed := managed)];
      }
      return false;
    }

    /** Brings the recorded ports and groups up to date. */
    method SyncStatus(c: Pass) returns (changed: bool)
      modifies this`status
      ensures status == SyncedStatus(c, old(status)) && (changed <==> status != old(status))
    {
      changed := false;
      var same := Equivalent(c.spec.tcpPorts, status.tcpPorts);
      if !same {
        status := status.(tcpPorts := c.spec.tcpPorts);
        changed := true;
      }
      same := Equivalent(c.spec.udpPorts, status.udpPorts);
      if !same {
        status := status.(udpPorts := c.spec.udpPorts);
        changed := true;
      }
      same := Equivalent(status.groups, c.groupIds);
      if !same {
        status := status.(groups := c.groupIds);
        changed := true;
      }
    }

    static method Correct(c: Pass, policy: string, p: Policy) returns (q: Policy, changed: bool)
      ensures q == Corrected(c, policy, p) && (changed <==> q != p)
    {
      q, changed := p, false;
      if q.generatedBy != Print(c.key) {
        q := q.(generatedBy := Print(c.key));
        changed := true;
      }
      var wanted := AutoName(c);
      if policy in c.spec.friendly {
        wanted := c.spec.friendly[policy];
      }
      if q.spec.name != wanted {
        q := q.(spec := q.spec.(name := wanted));
        changed := true;
      }
      if q.spec.description != Description(c) {
        q := q.(spec := q.spec.(description := Description(c)));
        changed := true;
      }
      var same := Equivalent(q.spec.sources, c.spec.policySources);
      if !same {
        q := q.(spec := q.spec.(sources := c.spec.policySources));
        changed := true;
      }
    }

    method HandlePolicyDelete(c: Pass, n: nat, policy: string, kept: seq<string>) returns (err: bool)
      modifies this
      ensures State(policies, status, err) == AfterRemove(c, n, policy, kept, State(old(policies), old(status), false))
    {
      if policy in kept {
        return false;
      }
      var name := policy;
      if policy in status.mapping {
        name := status.mapping[policy];
      }
      if GetRemoved(n) in c.down {
        return true;
      }
      if name !in policies {
        return false;
      }
      if policy in status.mapping {
        if Delete(n) in c.down {
          return true;
        }
        if policies[name].finalizers == [] {
          policies := policies - {name};
        } else {
          policies := policies[name := policies[name].(deleting := true)];
        }
        status := status.(mapping := status.mapping - {policy});
      } else if c.key in policies[name].managed {
        var managed := Without(policies[name].managed, c.key);
        if WriteRemoved(n) in c.down {
          return true;
        }
        policies := policies[name := policies[name].(managed := managed)];
      }
      return false;
    }

    method AddListed(c: Pass, listed: seq<string>) returns (err: bool)
      modifies this
      ensures State(policies, status, err) == AfterAdds(c, listed, |listed|, State(old(policies), old(status), false))
    {
      for i := 0 to |listed|
        invariant State(policies, status, false) == AfterAdds(c, listed, i, State(old(policies), old(status), false))
      {
        err := HandlePolicyAddUpdate(c, i, listed[i]);
        if err {
          AddsStop(c, listed, i + 1, |listed|, State(old(policies), old(status), false));
          return true;
        }
      }
      return false;
    }

    method RemoveUnlisted(c: Pass, recorded: seq<string>, listed: seq<string>) returns (err: bool)
      modifies this
      ensures State(policies, status, err)
           == AfterRemoves(c, recorded, listed, |recorded|, State(old(policies), old(status), false))
    {
      for i := 0 to |recorded|
        invariant State(policies, status, false)
               == AfterRemoves(c, recorded, listed, i, State(old(policies), old(status), false))
      {
        err := HandlePolicyDelete(c, i, recorded[i], listed);
        if err {
          RemovesMore(c, recorded, listed, i + 1, |recorded|, State(old(policies), old(status), false));
          return true;
        }
      }
      return false;
    }

    method HandlePolicy(c: Pass) returns (err: bool)
      modifies this
      ensures State(policies, status, err) == AfterPolicy(c, State(old(policies), old(status), false))
    {
      if status.policyName == None && c.spec.policyName == "" {
        return false;
      }
      var listed := SplitTrim(c.spec.policyName, ',');
      var recorded := [];
      if status.policyName.Some? {
        recorded := SplitTrim(status.policyName.value, ',');
      }
      err := AddListed(c, listed);
      if err {
        RemovesStop(c, recorded, listed, |recorded|, State(policies, status, true));
        return true;
      }
      err := RemoveUnlisted(c, recorded, listed);
      if err {
        return true;
      }
      if status.policyName == None || status.policyName.value != c.spec.policyName {
        status := status.(policyName := Some(c.spec.policyName));
      }
    }
  }

  // ----- errors stop a walk -----

  lemma {:induction false} AddsStop(c: Pass, list: seq<string>, m: nat, n: nat, s: State)
    requires m <= n <= |list| && AfterAdds(c, list, m, s).err
    ensures AfterAdds(c, list, n, s) == AfterAdds(c, list, m, s)
  {
    if m < n {
      AddsStop(c, list, m, n - 1, s);
    }
  }

  lemma {:induction false} RemovesStop(c: Pass, list: seq<string>, kept: seq<string>, n: nat, s: State)
    requires n <= |list| && s.err
    ensures AfterRemoves(c, list, kept, n, s) == s
  {
    if n > 0 {
      RemovesStop(c, list, kept, n - 1, s);
    }
  }

  lemma {:induction false} RemovesMore(c: Pass, list: seq<string>, kept: seq<string>, m: nat, n: nat, s: State)
    requires m <= n <= |list| && AfterRemoves(c, list, kept, m, s).err
    ensures AfterRemoves(c, list, kept, n, s) == AfterRemoves(c, list, kept, m, s)
  {
    if m < n {
      RemovesMore(c, list, kept, m, n - 1, s);
    }
  }
}
