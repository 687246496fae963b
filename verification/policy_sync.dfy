// OZPolicy.Reconcile: re-read the managed resources, merge their ports and keep at most one remote
// policy per protocol (internal/controller/ozpolicy_controller.go).
module PolicySync {
  import opened Finalizers
  import opened KeyNames
  import opened PolicyObjects
  import opened Slices
  import opened Tables

  datatype Call =
    | GetPolicy | GetResource(key: Key) | ListDestinations | ListSources
    | CreateRemote(p: Protocol) | UpdateRemote(p: Protocol) | DeleteRemote(p: Protocol)
    | UpdateObject | WriteStatus

  datatype RemotePolicy = RemotePolicy(
    name: string, description: string, protocol: Protocol,
    sources: seq<string>, destinations: seq<string>, ports: seq<int>, bidirectional: bool)

  datatype RemoteGroup = RemoteGroup(id: string, name: string)

  datatype World = World(
    resources: map<Key, Resource>,
    policies: map<string, Policy>,
    remote: Table<RemotePolicy>,
    groups: seq<RemoteGroup>)

  /** One pass: the calls that fail, the order Go's map iteration picked, and the text of the server's
      "no such policy" error. */
  datatype Pass = Pass(down: set<Call>, order: seq<Protocol>, missing: string)

  ghost predicate Runs(c: Pass) {
    c.order == [Tcp, Udp] || c.order == [Udp, Tcp]
  }

  /** strings.Contains(text, part). */
  predicate Contains(text: string, part: string) {
    exists i: nat | i <= |text| :: OccursAt(text, part, i)
  }

  /** The check the sync path makes on a server error. */
  predicate Recognized(missing: string) {
    Contains(missing, "not found")
  }

  /** The check the deletion path makes: the same call with its arguments exchanged. */
  predicate RecognizedByDelete(missing: string) {
    Contains("not found", missing)
  }

  // ----- merging -----

  function LiveKeys(resources: map<Key, Resource>, managed: seq<Key>): seq<Key> {
    if managed == [] then []
    else
      var rest := LiveKeys(resources, managed[..|managed| - 1]);
      var k := managed[|managed| - 1];
      if k in resources && !resources[k].deleting then rest + [k] else rest
  }

  lemma {:induction false} LiveKeysMembers(resources: map<Key, Resource>, managed: seq<Key>, k: Key)
    ensures k in LiveKeys(resources, managed) <==> k in managed && k in resources && !resources[k].deleting
  {
    if managed != [] {
      LiveKeysMembers(resources, managed[..|managed| - 1], k);
      assert managed == managed[..|managed| - 1] + [managed[|managed| - 1]];
    }
  }

  /** Whether mapResources takes the resource into account for policy `name`. */
  predicate Selected(r: Resource, name: string, generatedBy: string) {
    && r.status.policyName.Some?
    && var listed := Names(r.status.policyName.value, ',');
       if generatedBy == "" then name in listed else Strip(name, GeneratedSuffix(generatedBy)) in listed
  }

  function Ports(s: ResourceSpec, p: Protocol): seq<int> {
    match p
    case Tcp => s.tcpPorts
    case Udp => s.udpPorts
  }

  /** Ports of the selected resources among `keys`, without order or repeats. */
  ghost function MergedPorts(resources: map<Key, Resource>, keys: seq<Key>,
                             name: string, p: Policy, proto: Protocol): set<int>
  {
    set k, v | k in keys && k in resources && Selected(resources[k], name, p.generatedBy) &&
        v in Ports(resources[k].spec, proto) :: v
  }

  ghost function MergedGroups(resources: map<Key, Resource>, keys: seq<Key>, name: string, p: Policy): seq<string> {
    if keys == [] then []
    else
      var k := keys[|keys| - 1];
      MergedGroups(resources, keys[..|keys| - 1], name, p) +
      if k in resources && Selected(resources[k], name, p.generatedBy) then resources[k].status.groups else []
  }

  ghost predicate Increasing(s: seq<int>) {
    forall i, j :: 0 <= i < j < |s| ==> s[i] < s[j]
  }

  lemma {:induction false} MinExists(s: set<int>) returns (m: int)
    requires s != {}
    ensures m in s && forall v :: v in s ==> m <= v
  {
    assert (forall v :: v !in s) ==> s == {};
    var x :| x in s;
    var rest := s - {x};
    assert forall v :: v in s ==> v == x || v in rest;
    if rest == {} {
      m := x;
    } else {
      var r := MinExists(rest);
      m := if r < x then r else x;
    }
  }

  /** What slices.Sort makes of the keys of a map, whatever order they were read in. */
  ghost function Sorted(s: set<int>): (r: seq<int>)
    ensures Increasing(r)
    ensures forall v :: v in r <==> v in s
  {
    if s == {} then []
    else
      assert exists m :: m in s && forall v :: v in s ==> m <= v by { var m := MinExists(s); }
      var m :| m in s && forall v :: v in s ==> m <= v;
      [m] + Sorted(s - {m})
  }

  lemma {:induction false} SortedUnique(a: seq<int>, b: seq<int>)
    requires Increasing(a) && Increasing(b) && forall v :: v in a <==> v in b
    ensures a == b
  {
    if a == [] {
      assert b == [] by {
        assert forall i :: 0 <= i < |b| ==> b[i] in b;
      }
    } else {
      assert a[0] in a && b != [];
      assert b[0] in b;
      assert a[0] == b[0];
      forall v ensures v in a[1..] <==> v in b[1..] {
        assert v in a <==> v == a[0] || v in a[1..];
        assert v in b <==> v == b[0] || v in b[1..];
      }
      SortedUnique(a[1..], b[1..]);
    }
  }

  /** The ID groupNamesToIDs finds for a name; "" when the server has no such group. */
  function GroupId(groups: seq<RemoteGroup>, name: string): string {
    if groups == [] then ""
    else if groups[|groups| - 1].name == name then groups[|groups| - 1].id
    else GroupId(groups[..|groups| - 1], name)
  }

  function GroupIds(groups: seq<RemoteGroup>, names: seq<string>): seq<string> {
    if names == [] then [] else GroupIds(groups, names[..|names| - 1]) + [GroupId(groups, names[|names| - 1])]
  }

  /** id belongs to the last listed group of this name, or is empty when there is none. */
  predicate FoundId(groups: seq<RemoteGroup>, name: string, id: string) {
    || (id == "" && forall j :: 0 <= j < |groups| ==> groups[j].name != name)
    || exists j :: 0 <= j < |groups| && groups[j] == RemoteGroup(id, name)
         && forall k :: j < k < |groups| ==> groups[k].name != name
  }

  predicate Resolved(groups: seq<RemoteGroup>, names: seq<string>, ids: seq<string>) {
    |ids| == |names| && forall i :: 0 <= i < |names| ==> FoundId(groups, names[i], ids[i])
  }

  lemma {:induction false} GroupIdFound(groups: seq<RemoteGroup>, name: string)
    ensures FoundId(groups, name, GroupId(groups, name))
  {
    if groups != [] {
      var n := |groups| - 1;
      if groups[n].name == name {
        assert groups[n] == RemoteGroup(groups[n].id, name);
      } else {
        GroupIdFound(groups[..n], name);
        var id := GroupId(groups[..n], name);
        if j :| 0 <= j < n && groups[..n][j] == RemoteGroup(id, name)
                && forall k :: j < k < n ==> groups[..n][k].name != name {
          assert groups[j] == RemoteGroup(id, name);
          assert forall k :: j < k < |groups| ==> groups[k].name != name;
        } else {
          assert forall j :: 0 <= j < n ==> groups[j] == groups[..n][j];
        }
      }
    }
  }

  /** Position by position, each name becomes the ID of the last listed group of that name. */
  lemma {:induction false} GroupIdsResolved(groups: seq<RemoteGroup>, names: seq<string>)
    ensures Resolved(groups, names, GroupIds(groups, names))
  {
    if names != [] {
      GroupIdsResolved(groups, names[..|names| - 1]);
      GroupIdFound(groups, names[|names| - 1]);
    }
  }

  // ----- one protocol -----

  /** Working copy of the policy, the server, whether to requeue, and whether an error was returned. */
  datatype Progress = Progress(policy: Policy, remote: Table<RemotePolicy>, requeue: bool, err: bool)

  /** The merged input of a sync. */
  datatype Input = Input(sources: seq<string>, destinations: seq<string>, tcp: seq<int>, udp: seq<int>)

  function InputPorts(i: Input, p: Protocol): seq<int> {
    match p
    case Tcp => i.tcp
    case Udp => i.udp
  }

  function Id(p: Policy, proto: Protocol): Option<nat> {
    match proto
    case Tcp => p.tcpId
    case Udp => p.udpId
  }

  function WithId(p: Policy, proto: Protocol, id: Option<nat>): Policy {
    match proto
    case Tcp => p.(tcpId := id)
    case Udp => p.(udpId := id)
  }

  predicate Allowed(s: PolicySpec, p: Protocol) {
    s.protocols == [] || p in s.protocols
  }

  /** A remote policy is wanted for a protocol that is allowed and has ports, sources and destinations. */
  predicate Wanted(s: PolicySpec, i: Input, p: Protocol) {
    Allowed(s, p) && InputPorts(i, p) != [] && i.sources != [] && i.destinations != []
  }

  function Desired(s: PolicySpec, i: Input, p: Protocol): RemotePolicy {
    RemotePolicy(s.name + (if p == Tcp then " TCP" else " UDP"), s.description, p,
                 i.sources, i.destinations, InputPorts(i, p) + s.ports, s.bidirectional)
  }

  function AfterProtocol(c: Pass, i: Input, p: Protocol, s: Progress): Progress {
    var id := Id(s.policy, p);
    if s.err then s
    else if !Wanted(s.policy.spec, i, p) then
      if id == None then s
      else if DeleteRemote(p) in c.down || (id.value !in s.remote.rows && !Recognized(c.missing)) then s.(err := true)
      else s.(policy := WithId(s.policy, p, None), remote := s.remote.Drop(id.value))
    else if id == None then
      if CreateRemote(p) in c.down then s.(err := true)
      else s.(policy := WithId(s.policy, p, Some(s.remote.next)), remote := s.remote.Add(Desired(s.policy.spec, i, p)))
    else if UpdateRemote(p) in c.down then s.(err := true, requeue := false)
    else if id.value in s.remote.rows then
      s.(remote := s.remote.Put(id.value, Desired(s.policy.spec, i, p)), requeue := false)
    else if Recognized(c.missing) then s.(policy := WithId(s.policy, p, None), requeue := true)
    else s.(err := true, requeue := false)
  }

  function AfterProtocols(c: Pass, i: Input, n: nat, s: Progress): Progress
    requires n <= |c.order|
  {
    if n == 0 then s else AfterProtocol(c, i, c.order[n - 1], AfterProtocols(c, i, n - 1, s))
  }

  // ----- whole passes -----

  datatype Outcome = Outcome(world: World, err: bool)

  ghost function InputOf(w: World, name: string, p: Policy): Input {
    var keys := LiveKeys(w.resources, p.managed);
    Input(GroupIds(w.groups, p.spec.sources),
          GroupIds(w.groups, p.spec.destinations) + MergedGroups(w.resources, keys, name, p),
          Sorted(MergedPorts(w.resources, keys, name, p, Tcp)),
          Sorted(MergedPorts(w.resources, keys, name, p, Udp)))
  }

  ghost function AfterSync(c: Pass, w: World, name: string): Outcome
    requires name in w.policies && Runs(c)
  {
    var p := w.policies[name];
    if (exists k :: k in p.managed && GetResource(k) in c.down) || ListDestinations in c.down || ListSources in c.down
    then Outcome(w, true)
    else
      var start := Progress(p.(managed := LiveKeys(w.resources, p.managed)), w.remote, false, false);
      var s := AfterProtocols(c, InputOf(w, name, p), 2, start);
      if s.err || WriteStatus in c.down then Outcome(w.(remote := s.remote), true)
      else Outcome(w.(remote := s.remote, policies := w.policies[name := s.policy]), false)
  }

  /** handleDelete's step for one recorded remote policy. */
  function AfterDeleteOne(c: Pass, p: Protocol, s: Progress): Progress {
    var id := Id(s.policy, p);
    if s.err || id == None then s
    else if DeleteRemote(p) in c.down || (id.value !in s.remote.rows && !RecognizedByDelete(c.missing))
    then s.(err := true)
    else s.(policy := WithId(s.policy, p, None), remote := s.remote.Drop(id.value))
  }

  function AfterDelete(c: Pass, w: World, name: string): Outcome
    requires name in w.policies
  {
    var p := w.policies[name];
    if p.finalizers == [] then Outcome(w, false)
    else
      var s := AfterDeleteOne(c, Udp, AfterDeleteOne(c, Tcp, Progress(p, w.remote, false, false)));
      var rest := Drop(p.finalizers, {CLEANUP});
      if s.err || (CLEANUP in p.finalizers && UpdateObject in c.down) then Outcome(w.(remote := s.remote), true)
      else if rest == [] then Outcome(w.(remote := s.remote, policies := w.policies - {name}), false)
      else if WriteStatus in c.down
      then Outcome(w.(remote := s.remote, policies := w.policies[name := p.(finalizers := rest)]), true)
      else
        // updating the object reads its stored status back, so the cleared IDs only last without that update
        var q := if CLEANUP in p.finalizers then p else s.policy;
        Outcome(w.(remote := s.remote, policies := w.policies[name := q.(finalizers := rest)]), false)
  }

  ghost function AfterPass(c: Pass, w: World, name: string): Outcome
    requires Runs(c)
  {
    if GetPolicy in c.down then Outcome(w, true)
    else if name !in w.policies then Outcome(w, false)
    else if w.policies[name].deleting then AfterDelete(c, w, name)
    else AfterSync(c, w, name)
  }

  /** The cluster objects and the server rows an OZPolicy pass reads and writes. */
  class PolicyReconciler {
    var resources: map<Key, Resource>
    var policies: map<string, Policy>
    var remote: Table<RemotePolicy>
    var groups: seq<RemoteGroup>

    constructor (w: World)
      ensures State() == w
    {
      resources, policies, remote, groups := w.resources, w.policies, w.remote, w.groups;
    }

    function State(): World
      reads this
    {
      World(resources, policies, remote, groups)
    }

    method GetResources(c: Pass, managed: seq<Key>) returns (keys: seq<Key>, err: bool)
      ensures err <==> exists k :: k in managed && GetResource(k) in c.down
      ensures !err ==> keys == LiveKeys(resources, managed)
    {
      keys := [];
      for i := 0 to |managed|
        invariant forall k :: k in managed[..i] ==> GetResource(k) !in c.down
        invariant keys == LiveKeys(resources, managed[..i])
      {
        if GetResource(managed[i]) in c.down {
          return keys, true;
        }
        assert managed[..i + 1][..i] == managed[..i];
        if managed[i] in resources && !resources[managed[i]].deleting {
          keys := keys + [managed[i]];
        }
      }
      assert managed[..|managed|] == managed;
      return keys, false;
    }

    method GroupNamesToIds(names: seq<string>) returns (ids: seq<string>)
      ensures ids == GroupIds(groups, names) && Resolved(groups, names, ids)
    {
      var byName: map<string, string> := map[];
      for i := 0 to |groups|
        invariant forall n :: (if n in byName then byName[n] else "") == GroupId(groups[..i], n)
      {
        assert groups[..i + 1][..i] == groups[..i];
        byName := byName[groups[i].name := groups[i].id];
      }
      assert groups[..|groups|] == groups;
      ids := [];
      for i := 0 to |names|
        invariant ids == GroupIds(groups, names[..i])
      {
        assert names[..i + 1][..i] == names[..i];
        ids := ids + [if names[i] in byName then byName[names[i]] else ""];
      }
      assert names[..|names|] == names;
      GroupIdsResolved(groups, names);
    }

    /** Reads the keys of a map in any order and sorts them. */
    static method SortKeys(s: set<int>) returns (r: seq<int>)
      ensures r == Sorted(s)
    {
      r := [];
      var left := s;
      while left != {}
        invariant Increasing(r)
        invariant forall v :: v in r <==> v in s - left
        invariant left <= s
        decreases left
      {
        assert (forall v :: v !in left) ==> left == {};
        var v :| v in left;
        r := Insert(r, v);
        left := left - {v};
      }
      SortedUnique(r, Sorted(s));
    }

    static method Insert(s: seq<int>, v: int) returns (r: seq<int>)
      requires Increasing(s) && v !in s
      ensures Increasing(r) && forall x :: x in r <==> x in s || x == v
    {
      var i := 0;
      while i < |s| && s[i] < v
        invariant i <= |s| && forall j :: 0 <= j < i ==> s[j] < v
      {
        i := i + 1;
      }
      r := s[..i] + [v] + s[i..];
      InsertMembers(s, i, v);
    }

    /** The loop of mapResources over the managed resources. */
    method MergeResources(name: string, p: Policy, keys: seq<Key>)
      returns (tcp: set<int>, udp: set<int>, dests: seq<string>)
      requires forall k :: k in keys ==> k in resources
      ensures tcp == MergedPorts(resources, keys, name, p, Tcp) && udp == MergedPorts(resources, keys, name, p, Udp)
      ensures dests == MergedGroups(resources, keys, name, p)
    {
      tcp, udp, dests := {}, {}, [];
      for i := 0 to |keys|
        invariant tcp == MergedPorts(resources, keys[..i], name, p, Tcp)
        invariant udp == MergedPorts(resources, keys[..i], name, p, Udp)
        invariant dests == MergedGroups(resources, keys[..i], name, p)
      {
        var r := resources[keys[i]];
        assert keys[..i + 1][..i] == keys[..i];
        MergedMore(resources, keys, i, name, p, Tcp);
        MergedMore(resources, keys, i, name, p, Udp);
        var picked := Selected(r, name, p.generatedBy);
        if !picked {
          continue;
        }
        dests := dests + r.status.groups;
        tcp := tcp + set v | v in r.spec.tcpPorts;
        udp := udp + set v | v in r.spec.udpPorts;
      }
      assert keys[..|keys|] == keys;
    }

    method MapResources(c: Pass, name: string, p: Policy, keys: seq<Key>) returns (i: Input, err: bool)
      requires forall k :: k in keys ==> k in resources
      ensures err <==> ListDestinations in c.down
      ensures !err ==>
              && i.destinations == GroupIds(groups, p.spec.destinations) + MergedGroups(resources, keys, name, p)
              && i.tcp == Sorted(MergedPorts(resources, keys, name, p, Tcp))
              && i.udp == Sorted(MergedPorts(resources, keys, name, p, Udp))
    {
      i := Input([], [], [], []);
      if ListDestinations in c.down {
        return i, true;
      }
      var dests := GroupNamesToIds(p.spec.destinations);
      var tcpSet, udpSet, more := MergeResources(name, p, keys);
      var tcp := SortKeys(tcpSet);
      var udp := SortKeys(udpSet);
      return Input([], dests + more, tcp, udp), false;
    }

    /** The body of syncPolicy's loop. */
    method SyncProtocol(c: Pass, i: Input, p: Protocol, policy: Policy, requeue: bool)
      returns (policy': Policy, requeue': bool, err: bool)
      modifies this`remote
      ensures Progress(policy', remote, requeue', err)
           == AfterProtocol(c, i, p, Progress(policy, old(remote), requeue, false))
    {
      policy', requeue', err := policy, requeue, false;
      var ports := InputPorts(i, p);
      var id := Id(policy, p);
      if |policy.spec.protocols| > 0 && p !in policy.spec.protocols {
        if id != None {
          if DeleteRemote(p) in c.down || (id.value !in remote.rows && !Recognized(c.missing)) {
            return policy, requeue, true;
          }
          remote := remote.Drop(id.value);
          id := None;
        }
      } else if |ports| == 0 && id == None {
        return;
      } else if |i.destinations| == 0 && id == None {
        return;
      } else if |i.sources| == 0 && id == None {
        return;
      } else if |ports| == 0 || |i.destinations| == 0 || |i.sources| == 0 {
        if DeleteRemote(p) in c.down || (id.value !in remote.rows && !Recognized(c.missing)) {
          return policy, requeue, true;
        }
        remote := remote.Drop(id.value);
        id := None;
      } else {
        var wanted := Desired(policy.spec, i, p);
        if id == None {
          if CreateRemote(p) in c.down {
            return policy, requeue, true;
          }
          id := Some(remote.next);
          remote := remote.Add(wanted);
        } else {
          if UpdateRemote(p) in c.down {
            return policy, false, true;
          }
          if id.value in remote.rows {
            remote := remote.Put(id.value, wanted);
            requeue' := false;
          } else if Recognized(c.missing) {
            id := None;
            requeue' := true;
          } else {
            return policy, false, true;
          }
        }
      }
      policy' := WithId(policy, p, id);
    }

    method SyncPolicy(c: Pass, i: Input, policy: Policy) returns (policy': Policy, requeue: bool, err: bool)
      requires Runs(c)
      modifies this`remote
      ensures Progress(policy', remote, requeue, err)
           == AfterProtocols(c, i, 2, Progress(policy, old(remote), false, false))
    {
      policy', requeue, err := policy, false, false;
      for n := 0 to |c.order|
        invariant Progress(policy', remote, requeue, false)
               == AfterProtocols(c, i, n, Progress(policy, old(remote), false, false))
      {
        policy', requeue, err := SyncProtocol(c, i, c.order[n], policy', requeue);
        if err {
          ProtocolsStop(c, i, n + 1, Progress(policy, old(remote), false, false));
          return;
        }
      }
    }

    /** handleDelete's step for one recorded remote policy. */
    method DeleteRecorded(c: Pass, proto: Protocol, p: Policy) returns (p': Policy, err: bool)
      modifies this`remote
      ensures Progress(p', remote, false, err) == AfterDeleteOne(c, proto, Progress(p, old(remote), false, false))
    {
      var id := Id(p, proto);
      if id == None {
        return p, false;
      }
      if DeleteRemote(proto) in c.down || (id.value !in remote.rows && !RecognizedByDelete(c.missing)) {
        return p, true;
      }
      remote := remote.Drop(id.value);
      return WithId(p, proto, None), false;
    }

    method HandleDelete(c: Pass, name: string) returns (err: bool)
      requires name in policies && policies[name].finalizers != []
      modifies this
      ensures Outcome(State(), err) == AfterDelete(c, old(State()), name)
    {
      var p := policies[name];
      p, err := DeleteRecorded(c, Tcp, p);
      if err {
        return true;
      }
      p, err := DeleteRecorded(c, Udp, p);
      if err {
        return true;
      }
      err := DropFinalizer(c, name, p);
    }

    /** The end of handleDelete and the deferred status write, for the working copy p. */
    method DropFinalizer(c: Pass, name: string, p: Policy) returns (err: bool)
      requires name in policies && p.finalizers == policies[name].finalizers != []
      modifies this`policies
      ensures var rest := Drop(p.finalizers, {CLEANUP});
              && (err <==> (CLEANUP in p.finalizers && UpdateObject in c.down) || (rest != [] && WriteStatus in c.down))
              && policies == if CLEANUP in p.finalizers && UpdateObject in c.down then old(policies)
                             else if rest == [] then old(policies) - {name}
                             else if err || CLEANUP in p.finalizers
                             then old(policies)[name := old(policies)[name].(finalizers := rest)]
                             else old(policies)[name := p.(finalizers := rest)]
    {
      var rest := p.finalizers;
      if CLEANUP in p.finalizers {
        rest := Without(p.finalizers, CLEANUP);
        if UpdateObject in c.down {
          return true;
        }
        if rest == [] {
          // the last finalizer is gone, and so is the object
          policies := policies - {name};
          return false;
        }
        policies := policies[name := policies[name].(finalizers := rest)];
        // the update read the stored status back: there is nothing left to write
        return WriteStatus in c.down;
      }
      DropNothing(p.finalizers, {CLEANUP});
      if WriteStatus in c.down {
        return true;
      }
      policies := policies[name := p.(finalizers := rest)];
      return false;
    }

    method Reconcile(c: Pass, name: string) returns (err: bool)
      requires Runs(c)
      modifies this
      ensures Outcome(State(), err) == AfterPass(c, old(State()), name)
    {
      if GetPolicy in c.down {
        return true;
      }
      if name !in policies {
        return false;
      }
      var p := policies[name];
      if p.deleting {
        if p.finalizers == [] {
          return false;
        }
        err := HandleDelete(c, name);
        return err;
      }
      var keys;
      keys, err := GetResources(c, p.managed);
      if err {
        return true;
      }
      forall k | k in keys ensures k in resources {
        LiveKeysMembers(resources, p.managed, k);
      }
      var i;
      i, err := MapResources(c, name, p, keys);
      if err || ListSources in c.down {
        return true;
      }
      var sources := GroupNamesToIds(p.spec.sources);
      i := i.(sources := sources);
      var requeue;
      p, requeue, err := SyncPolicy(c, i, p.(managed := keys));
      if err || WriteStatus in c.down {
        return true;
      }
      policies := policies[name := p];
      return false;
    }
  }

  lemma InsertMembers(s: seq<int>, i: nat, v: int)
    requires i <= |s| && Increasing(s) && v !in s
    requires (forall j :: 0 <= j < i ==> s[j] < v) && (i < |s| ==> v <= s[i])
    ensures var r := s[..i] + [v] + s[i..];
            Increasing(r) && forall x :: x in r <==> x in s || x == v
  {
    var a, b := s[..i], s[i..];
    assert s == a + b;
    assert forall x :: x in s <==> x in a || x in b;
    assert i < |s| ==> s[i] in s;
    assert forall j :: 0 <= j < |b| ==> v < b[j] by {
      forall j | 0 <= j < |b| ensures v < b[j] {
        assert b[j] == s[i + j] && (j > 0 ==> s[i] < s[i + j]);
      }
    }
  }

  lemma MergedMore(resources: map<Key, Resource>, keys: seq<Key>, i: nat, name: string, p: Policy, proto: Protocol)
    requires i < |keys| && keys[i] in resources
    ensures MergedPorts(resources, keys[..i + 1], name, p, proto)
         == MergedPorts(resources, keys[..i], name, p, proto)
          + (if Selected(resources[keys[i]], name, p.generatedBy)
              then set v | v in Ports(resources[keys[i]].spec, proto) else {})
  {
    var a, b := keys[..i], keys[..i + 1];
    assert b == a + [keys[i]];
    var more := if Selected(resources[keys[i]], name, p.generatedBy)
        then set v | v in Ports(resources[keys[i]].spec, proto) else {};
    forall v
      ensures v in MergedPorts(resources, b, name, p, proto) <==> v in MergedPorts(resources, a, name, p, proto) + more
    {
      if v in more {
        assert keys[i] in b;
      }
      if v in MergedPorts(resources, a, name, p, proto) {
        var k :| k in a && k in resources && Selected(resources[k], name, p.generatedBy) &&
            v in Ports(resources[k].spec, proto);
        assert k in b;
      }
      if v in MergedPorts(resources, b, name, p, proto) {
        var k :| k in b && k in resources && Selected(resources[k], name, p.generatedBy) &&
            v in Ports(resources[k].spec, proto);
        assert k in a || k == keys[i];
      }
    }
  }

  lemma {:induction false} ProtocolsStop(c: Pass, i: Input, n: nat, s: Progress)
    requires Runs(c) && n <= 2 && AfterProtocols(c, i, n, s).err
    ensures AfterProtocols(c, i, 2, s) == AfterProtocols(c, i, n, s)
    decreases 2 - n
  {
    if n < 2 {
      ProtocolsStop(c, i, n + 1, s);
    }
  }
}
