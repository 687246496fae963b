// What the remote policies of an OZPolicy stand for: the union over the resources it merges. For a policy
// generated for a resource, these are the managed ones whose status lists its short name.
module PolicyMeaning {
  import opened KeyNames
  import opened PolicyObjects
  import opened PolicySettling
  import opened PolicySync
  import opened Slices
  import opened Tables

  /** The spec ports of resource k for one protocol. */
  function PortsOf(w: World, k: Key, p: Protocol): seq<int> {
    if k !in w.resources then [] else if p == Tcp then w.resources[k].spec.tcpPorts else w.resources[k].spec.udpPorts
  }

  ghost function PortsFrom(w: World, from: set<Key>, p: Protocol): set<int> {
    set k, v | k in from && v in PortsOf(w, k, p) :: v
  }

  /** A destination: a group some resource records, or the ID of one of the policy's own destination groups. */
  ghost predicate Destined(w: World, name: string, from: set<Key>, g: string)
    requires name in w.policies
  {
    || (exists k :: k in from && k in w.resources && g in w.resources[k].status.groups)
    || (exists i :: 0 <= i < |w.policies[name].spec.destinations|
          && FoundId(w.groups, w.policies[name].spec.destinations[i], g))
  }

  /** What the operator promises for one protocol of a policy that merges the resources `from`. */
  ghost predicate Implements(before: World, after: World, name: string, p: Protocol, from: set<Key>)
    requires name in before.policies && name in after.policies
  {
    var spec := before.policies[name].spec;
    var ports := PortsFrom(before, from, p);
    var id := if p == Tcp then after.policies[name].tcpId else after.policies[name].udpId;
    if (spec.protocols == [] || p in spec.protocols) && ports != {} && spec.sources != []
       && exists g :: Destined(before, name, from, g)
    then
      && after.remote.Live(id)
      && var row := after.remote.rows[id.value];
      && row.protocol == p && row.bidirectional == spec.bidirectional && row.description == spec.description
      && row.name == spec.name + (if p == Tcp then " TCP" else " UDP")
      && row.ports == Sorted(ports) + spec.ports
      && Resolved(before.groups, spec.sources, row.sources)
      && (forall g :: g in row.destinations <==> Destined(before, name, from, g))
    else id == None
  }

  // ----- from a pass to the union -----

  /** A pass merges resource k. */
  ghost predicate Chosen(w: World, name: string, k: Key)
    requires name in w.policies
  {
    && k in LiveKeys(w.resources, w.policies[name].managed) && k in w.resources
    && Selected(w.resources[k], name, w.policies[name].generatedBy)
  }

  ghost predicate Chooses(w: World, name: string, from: set<Key>)
    requires name in w.policies
  {
    forall k :: Chosen(w, name, k) <==> k in from
  }

  lemma MergedPort(w: World, name: string, p: Protocol, v: int)
    requires name in w.policies
    ensures var q := w.policies[name];
            v in MergedPorts(w.resources, LiveKeys(w.resources, q.managed), name, q, p)
            <==> exists k :: Chosen(w, name, k) && v in PortsOf(w, k, p)
  {
    var q := w.policies[name];
    var keys := LiveKeys(w.resources, q.managed);
    if v in MergedPorts(w.resources, keys, name, q, p) {
      var k :| k in keys && k in w.resources && Selected(w.resources[k], name, q.generatedBy)
               && v in Ports(w.resources[k].spec, p);
      assert Chosen(w, name, k) && v in PortsOf(w, k, p);
    }
    if k :| Chosen(w, name, k) && v in PortsOf(w, k, p) {
      assert v in Ports(w.resources[k].spec, p);
    }
  }

  lemma PortsAreUnion(w: World, name: string, from: set<Key>, p: Protocol)
    requires name in w.policies && Chooses(w, name, from)
    ensures var q := w.policies[name];
            MergedPorts(w.resources, LiveKeys(w.resources, q.managed), name, q, p) == PortsFrom(w, from, p)
  {
    var merged := MergedPorts(w.resources, LiveKeys(w.resources, w.policies[name].managed), name, w.policies[name], p);
    forall v ensures v in merged <==> v in PortsFrom(w, from, p) {
      MergedPort(w, name, p, v);
      PortsFromMember(w, name, from, p, v);
    }
  }

  lemma PortsFromMember(w: World, name: string, from: set<Key>, p: Protocol, v: int)
    requires name in w.policies && Chooses(w, name, from)
    ensures v in PortsFrom(w, from, p) <==> exists k :: Chosen(w, name, k) && v in PortsOf(w, k, p)
  {
    if k :| k in from && v in PortsOf(w, k, p) {
      assert Chosen(w, name, k);
    }
  }

  ghost predicate Gives(resources: map<Key, Resource>, k: Key, name: string, p: Policy, g: string) {
    k in resources && Selected(resources[k], name, p.generatedBy) && g in resources[k].status.groups
  }

  lemma {:induction false} MergedGroupsMembers(resources: map<Key, Resource>, keys: seq<Key>,
                                               name: string, p: Policy, g: string)
    ensures g in MergedGroups(resources, keys, name, p) <==> exists k :: k in keys && Gives(resources, k, name, p, g)
  {
    if keys != [] {
      var front, last := keys[..|keys| - 1], keys[|keys| - 1];
      MergedGroupsMembers(resources, front, name, p, g);
      assert forall k :: k in keys <==> k in front || k == last;
      assert g in MergedGroups(resources, keys, name, p) <==>
             g in MergedGroups(resources, front, name, p) || Gives(resources, last, name, p, g);
    }
  }

  lemma FoundIdsAgree(groups: seq<RemoteGroup>, name: string, id: string)
    ensures FoundId(groups, name, id) <==> id == GroupId(groups, name)
  {
    GroupIdFound(groups, name);
  }

  lemma OwnDestinations(w: World, names: seq<string>, g: string)
    ensures g in GroupIds(w.groups, names) <==> exists i :: 0 <= i < |names| && FoundId(w.groups, names[i], g)
  {
    GroupIdsResolved(w.groups, names);
    var ids := GroupIds(w.groups, names);
    if g in ids {
      var i :| 0 <= i < |ids| && ids[i] == g;
      assert FoundId(w.groups, names[i], g);
    }
    if i :| 0 <= i < |names| && FoundId(w.groups, names[i], g) {
      FoundIdsAgree(w.groups, names[i], g);
      FoundIdsAgree(w.groups, names[i], ids[i]);
      assert ids[i] == g;
    }
  }

  lemma GroupsAreUnion(w: World, name: string, from: set<Key>, g: string)
    requires name in w.policies && Chooses(w, name, from)
    ensures g in InputOf(w, name, w.policies[name]).destinations <==> Destined(w, name, from, g)
  {
    var q := w.policies[name];
    var keys := LiveKeys(w.resources, q.managed);
    MergedGroupsMembers(w.resources, keys, name, q, g);
    OwnDestinations(w, q.spec.destinations, g);
    if k :| k in keys && Gives(w.resources, k, name, q, g) {
      assert Chosen(w, name, k);
    }
    if k :| k in from && k in w.resources && g in w.resources[k].status.groups {
      assert Chosen(w, name, k) && Gives(w.resources, k, name, q, g);
    }
  }

  lemma NonEmpty(s: seq<string>)
    ensures s != [] <==> exists g :: g in s
  {
    if s != [] {
      var g := s[0];
      assert g in s;
    }
  }

  lemma NonEmptyPorts(t: set<int>)
    ensures Sorted(t) == [] <==> t == {}
  {
    var s := Sorted(t);
    if s != [] {
      assert s[0] in t;
    }
    assert s == [] ==> forall v :: v !in t;
  }

  /** The input of a sync is the union over the chosen resources. */
  lemma InputIsUnion(w: World, name: string, from: set<Key>)
    requires name in w.policies && Chooses(w, name, from)
    ensures var i := InputOf(w, name, w.policies[name]);
            && i.tcp == Sorted(PortsFrom(w, from, Tcp)) && i.udp == Sorted(PortsFrom(w, from, Udp))
            && Resolved(w.groups, w.policies[name].spec.sources, i.sources)
            && (forall g :: g in i.destinations <==> Destined(w, name, from, g))
  {
    PortsAreUnion(w, name, from, Tcp);
    PortsAreUnion(w, name, from, Udp);
    GroupIdsResolved(w.groups, w.policies[name].spec.sources);
    forall g ensures g in InputOf(w, name, w.policies[name]).destinations <==> Destined(w, name, from, g) {
      GroupsAreUnion(w, name, from, g);
    }
  }

  /** Two clean passes leave what is promised for the resources they choose. */
  lemma TwoPassesImplement(c1: Pass, c2: Pass, w: World, name: string, from: set<Key>, p: Protocol)
    requires Clean(c1) && Clean(c2) && Active(w, name) && Chooses(w, name, from)
    ensures name in AfterPass(c2, AfterPass(c1, w, name).world, name).world.policies
    ensures Implements(w, AfterPass(c2, AfterPass(c1, w, name).world, name).world, name, p, from)
  {
    TwoPassesSettle(c1, c2, w, name);
    var q := w.policies[name];
    var v := AfterPass(c2, AfterPass(c1, w, name).world, name).world;
    var i := InputOf(w, name, q);
    InputIsUnion(w, name, from);
    SettledImplements(w, v, i, name, p, from);
  }

  lemma SettledImplements(w: World, v: World, i: Input, name: string, p: Protocol, from: set<Key>)
    requires name in w.policies && name in v.policies && v.policies[name].spec == w.policies[name].spec
    requires Settled(i, p, Progress(v.policies[name], v.remote, false, false))
    requires i.tcp == Sorted(PortsFrom(w, from, Tcp)) && i.udp == Sorted(PortsFrom(w, from, Udp))
    requires Resolved(w.groups, w.policies[name].spec.sources, i.sources)
    requires forall g :: g in i.destinations <==> Destined(w, name, from, g)
    ensures Implements(w, v, name, p, from)
  {
    NonEmpty(i.destinations);
    NonEmptyPorts(PortsFrom(w, from, p));
    assert (exists g :: Destined(w, name, from, g)) <==> exists g :: g in i.destinations;
  }

  // ----- policies generated for a resource -----

  /** The live managed resources whose status lists the short name. */
  ghost function Listers(w: World, name: string, policy: string): set<Key>
    requires name in w.policies
  {
    set k | k in w.policies[name].managed && k in w.resources && !w.resources[k].deleting
            && w.resources[k].status.policyName.Some?
            && policy in Names(w.resources[k].status.policyName.value, ',')
  }

  /** The object generated for resource owner under the short name `policy`, whose suffix occurs nowhere earlier. */
  ghost predicate Generated(w: World, name: string, policy: string, owner: Key) {
    && name in w.policies && '/' !in owner.ns && '/' !in owner.name
    && w.policies[name].generatedBy == owner.ns + "/" + owner.name
    && name == policy + "-" + owner.ns + "-" + owner.name
    && forall j: nat :: j < |policy| ==> !OccursAt(name, "-" + owner.ns + "-" + owner.name, j)
  }

  /** A pass over it merges exactly its live managed resources that list the short name. */
  lemma GeneratedChooses(w: World, name: string, policy: string, owner: Key)
    requires Generated(w, name, policy, owner)
    ensures Chooses(w, name, Listers(w, name, policy))
  {
    DashedKey(owner);
    assert GeneratedSuffix(Print(owner)) == "-" + owner.ns + "-" + owner.name;
    assert name == GeneratedName(policy, owner);
    GeneratedNameRoundTrip(policy, owner);
    forall k ensures Chosen(w, name, k) <==> k in Listers(w, name, policy) {
      LiveKeysMembers(w.resources, w.policies[name].managed, k);
    }
  }

  /** So two clean passes over it leave the union of the ports and recorded groups of these resources. */
  lemma GeneratedImplements(c1: Pass, c2: Pass, w: World, name: string, policy: string, owner: Key, p: Protocol)
    requires Clean(c1) && Clean(c2) && Active(w, name) && Generated(w, name, policy, owner)
    ensures name in AfterPass(c2, AfterPass(c1, w, name).world, name).world.policies
    ensures Implements(w, AfterPass(c2, AfterPass(c1, w, name).world, name).world, name, p, Listers(w, name, policy))
  {
    GeneratedChooses(w, name, policy, owner);
    TwoPassesImplement(c1, c2, w, name, Listers(w, name, policy), p);
  }
}
