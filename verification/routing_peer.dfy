// OZRoutingPeer.Reconcile with its deferred status write, and its ordered deletion
// (internal/controller/ozroutingpeer_controller.go).
module RoutingPeer {
  import opened ExemptList
  import opened Finalizers
  import opened KeyNames
  import opened Slices
  import opened Tables

  const METRIC := 9999

  datatype Status = Status(network: Option<nat>, key: Option<nat>, router: Option<nat>)

  datatype Peer = Peer(status: Status, deleting: bool, finalizers: seq<string>, exempt: Option<bool>)

  /** The OZGroup of the peer. */
  datatype Group = Group(specName: string, finalizers: seq<string>, id: Option<string>)

  /** An OZResource as far as teardown sees it: its network, the network resource its status records,
      and whether a finalizer holds it. */
  datatype Resource = Resource(network: nat, remote: Option<nat>, deleting: bool, guarded: bool)

  datatype SetupKey = SetupKey(plain: string, revoked: bool, group: string)

  datatype Router = Router(network: nat, enabled: bool, masquerade: bool, metric: int, groups: seq<string>)

  /** Everything an OZRoutingPeer pass can reach. secret is None when the Secret is missing and Some(None)
      when it lacks the setupKey entry; netResources maps a network resource to its network. */
  datatype World = World(
    peer: Option<Peer>,
    secret: Option<Option<string>>,
    deployment: bool,
    group: Option<Group>,
    resources: map<Key, Resource>,
    account: Account,
    keys: Table<SetupKey>,
    networks: Table<string>,
    routers: Table<Router>,
    netResources: Table<nat>)

  datatype Call =
    | GetPeer | ListNetworks | CreateNetwork | GetGroup | CreateGroup
    | CreateKey | CreateSecret | GetSecret | UpdateSecret | GetKey | DeleteKey
    | ListRouters | CreateRouter | UpdateRouter | ListAccounts | UpdateAccount
    | ApplyDeployment | GetDeployment | DeleteDeployment
    | ListResources | DeleteResource(key: Key) | DeleteNetwork | UpdateGroup | UpdatePeer | WriteStatus

  /** One pass: failing calls, the network name it uses, the plaintext the server would give a new key, and
      what the arbitrary list orders turn up: the network of that name, the first router of each network that
      has one, and the order of the resources. */
  datatype Pass = Pass(
    down: set<Call>,
    name: string,
    plain: string,
    foundNetwork: Option<nat>,
    firstRouter: map<nat, nat>,
    order: seq<Key>)

  /** The lists returned what the server holds. */
  ghost predicate Faithful(c: Pass, w: World) {
    && (c.foundNetwork.Some? ==>
          c.foundNetwork.value in w.networks.rows && w.networks.rows[c.foundNetwork.value] == c.name)
    && (c.foundNetwork == None ==> forall n :: n in w.networks.rows ==> w.networks.rows[n] != c.name)
    && (forall n :: n in c.firstRouter ==>
          c.firstRouter[n] in w.routers.rows && w.routers.rows[c.firstRouter[n]].network == n)
    && (forall r :: r in w.routers.rows ==> w.routers.rows[r].network in c.firstRouter)
    && (forall k :: k in w.resources <==> k in c.order)
  }

  predicate UniqueNetworks(w: World) {
    forall m, n :: m in w.networks.rows && n in w.networks.rows && w.networks.rows[m] == w.networks.rows[n] ==> m == n
  }

  predicate OneRouter(w: World) {
    forall q, r :: q in w.routers.rows && r in w.routers.rows && w.routers.rows[q].network == w.routers.rows[r].network
      ==> q == r
  }

  /** Some router serves the network. */
  predicate Served(w: World, network: nat) {
    exists r :: r in w.routers.rows && w.routers.rows[r].network == network
  }

  datatype Verdict = Go | Stop

  /** Progress of a pass: the stores, the working copy of the status, and whether to go on. */
  datatype Work = Work(world: World, status: Status, verdict: Verdict)

  // ----- stages of a pass over a peer that is not being deleted -----

  function AfterNetwork(c: Pass, s: Work): Work {
    if s.verdict.Stop? || s.status.network.Some? then s
    else if ListNetworks in c.down then s.(verdict := Stop)
    else if c.foundNetwork.Some? then s.(status := s.status.(network := c.foundNetwork))
    else if CreateNetwork in c.down then s.(verdict := Stop)
    else s.(world := s.world.(networks := s.world.networks.Add(c.name)),
            status := s.status.(network := Some(s.world.networks.next)))
  }

  function AfterGroup(c: Pass, s: Work): Work {
    if s.verdict.Stop? then s
    else if GetGroup in c.down then s.(verdict := Stop)
    else if s.world.group == None then
      if CreateGroup in c.down then s.(verdict := Stop)
      else s.(world := s.world.(group := Some(Group(c.name, [GROUP_CLEANUP, ROUTING_PEER_CLEANUP], None))),
          verdict := Stop)
    else if s.world.group.value.id == None then s.(verdict := Stop)
    else s
  }

  /** handleSetupKey. Requeueing and failing both end the pass. */
  function AfterKey(c: Pass, group: string, s: Work): Work {
    var w := s.world;
    if s.verdict.Stop? then s
    else if s.status.key == None then
      if CreateKey in c.down then s.(verdict := Stop)
      else
        var keyed := w.(keys := w.keys.Add(SetupKey(c.plain, false, group)));
        var made := Work(keyed, s.status.(key := Some(w.keys.next)), Go);
        if CreateSecret in c.down || (w.secret.Some? && (GetSecret in c.down || UpdateSecret in c.down))
        then made.(verdict := Stop)
        else made.(world := made.world.(secret := Some(Some(c.plain))))
    else if GetKey in c.down then s.(verdict := Stop)
    else
      var id := s.status.key.value;
      if id !in w.keys.rows then Work(w, s.status.(key := None), Stop)
      else if w.keys.rows[id].revoked then
        if DeleteKey in c.down then s.(verdict := Stop)
        else Work(w.(keys := w.keys.Drop(id)), s.status.(key := None), Stop)
      else if GetSecret in c.down then s.(verdict := Stop)
      else if w.secret == None || w.secret == Some(None) then
        if DeleteKey in c.down then s.(verdict := Stop)
        else Work(w.(keys := w.keys.Drop(id)), s.status.(key := None), Stop)
      else s
  }

  function WantedRouter(network: nat, group: string): Router {
    Router(network, true, true, METRIC, [group])
  }

  predicate RouterListed(c: Pass, routers: Table<Router>, network: nat) {
    network in c.firstRouter && c.firstRouter[network] in routers.rows
  }

  function AfterRouter(c: Pass, group: string, s: Work): Work {
    if s.verdict.Stop? || s.status.network == None then s
    else if ListRouters in c.down then s.(verdict := Stop)
    else
      var network := s.status.network.value;
      var w := s.world;
      if !RouterListed(c, w.routers, network) then
        if CreateRouter in c.down then s.(verdict := Stop)
        else s.(world := w.(routers := w.routers.Add(WantedRouter(network, group))),
                status := s.status.(router := Some(w.routers.next)))
      else if s.status.router == None then s.(status := s.status.(router := Some(c.firstRouter[network])))
      else
        var id := c.firstRouter[network];
        var wanted := w.routers.rows[id].(enabled := true, masquerade := true, metric := METRIC, groups := [group]);
        if w.routers.rows[id] == wanted then s
        else if UpdateRouter in c.down then s.(verdict := Stop)
        else s.(world := w.(routers := w.routers.Put(id, wanted)))
  }

  function AfterExempt(c: Pass, group: string, exempt: bool, s: Work): Work {
    var edited := Applied(s.world.account, group, exempt);
    if s.verdict.Stop? then s
    else if ListAccounts in c.down || (edited != s.world.account && UpdateAccount in c.down) then s.(verdict := Stop)
    else s.(world := s.world.(account := edited))
  }

  function AfterDeployment(c: Pass, s: Work): Work {
    if s.verdict.Stop? then s
    else if ApplyDeployment in c.down then s.(verdict := Stop)
    else s.(world := s.world.(deployment := true))
  }

  function AfterStages(c: Pass, p: Peer, w: World): Work {
    var s := AfterGroup(c, AfterNetwork(c, Work(w, p.status, Go)));
    if s.verdict.Stop? then s
    else
      var group := s.world.group.value.id.value;
      var exempt := if p.exempt.Some? then p.exempt.value else true;
      AfterDeployment(c, AfterExempt(c, group, exempt, AfterRouter(c, group, AfterKey(c, group, s))))
  }

  // ----- deletion -----

  function AfterDeleteDeployment(c: Pass, s: Work): Work {
    if GetDeployment in c.down || (s.world.deployment && DeleteDeployment in c.down) then s.(verdict := Stop)
    else s.(world := s.world.(deployment := false))
  }

  function AfterDeleteKey(c: Pass, s: Work): Work {
    if s.verdict.Stop? || s.status.key == None then s
    else if DeleteKey in c.down then s.(verdict := Stop)
    else s.(world := s.world.(keys := s.world.keys.Drop(s.status.key.value)), status := s.status.(key := None))
  }

  /** Deletion requests for the resources of the network: a guarded object is only marked. */
  function AfterDeleteResources(c: Pass, network: nat, n: nat, s: Work): Work
    requires n <= |c.order|
  {
    if n == 0 then s
    else
      var t := AfterDeleteResources(c, network, n - 1, s);
      var k := c.order[n - 1];
      if t.verdict.Stop? || k !in t.world.resources || t.world.resources[k].network != network then t
      else if DeleteResource(k) in c.down then t.(verdict := Stop)
      else if t.world.resources[k].guarded
      then t.(world := t.world.(resources := t.world.resources[k := t.world.resources[k].(deleting := true)]))
      else t.(world := t.world.(resources := t.world.resources - {k}))
  }

  function AfterDeleteNetwork(c: Pass, s: Work): Work {
    if s.verdict.Stop? || s.status.network == None then s
    else if ListResources in c.down then s.(verdict := Stop)
    else
      var network := s.status.network.value;
      var t := AfterDeleteResources(c, network, |c.order|, s);
      // the test looks at the list as it was read, over the whole cluster
      if t.verdict.Stop? || c.order != [] then t
      else if DeleteNetwork in c.down then t.(verdict := Stop)
      else t.(world := t.world.(networks := t.world.networks.Drop(network)),
              status := t.status.(network := None, router := None))
  }

  function AfterReleaseGroup(c: Pass, s: Work): Work {
    if s.verdict.Stop? || s.world.group == None then s
    else
      var g := s.world.group.value;
      if g.specName == "" || ROUTING_PEER_CLEANUP !in g.finalizers then s
      else if UpdateGroup in c.down then s.(verdict := Stop)
      else s.(world := s.world.(group := Some(g.(finalizers := Drop(g.finalizers, {ROUTING_PEER_CLEANUP})))))
  }

  function AfterUnexempt(c: Pass, s: Work): Work {
    if s.verdict.Stop? || s.world.group == None || s.world.group.value.id == None then s
    else AfterExempt(c, s.world.group.value.id.value, false, s)
  }

  function AfterTeardown(c: Pass, p: Peer, w: World): Work {
    var s := AfterDeleteKey(c, AfterDeleteDeployment(c, Work(w, p.status, Go)));
    var t := if s.verdict.Go? && GetGroup in c.down then s.(verdict := Stop) else s;
    AfterUnexempt(c, AfterReleaseGroup(c, AfterDeleteNetwork(c, t)))
  }

  /** The deferred status write. */
  function Written(c: Pass, p: Peer, s: Work): World {
    if WriteStatus in c.down then s.world else s.world.(peer := Some(p.(status := s.status)))
  }

  function AfterPass(c: Pass, w: World): World {
    if GetPeer in c.down || w.peer == None then w
    else
      var p := w.peer.value;
      if !p.deleting then Written(c, p, AfterStages(c, p, w))
      else if p.finalizers == [] then w
      else
        var s := AfterTeardown(c, p, w);
        if s.verdict.Stop? || s.status.network.Some? then Written(c, p, s)
        // the in-memory finalizers are already cleared, so the status write is skipped either way
        else if UpdatePeer in c.down then s.world
        else s.world.(peer := None)
  }

  class RoutingPeerReconciler {
    var peer: Option<Peer>
    var secret: Option<Option<string>>
    var deployment: bool
    var group: Option<Group>
    var resources: map<Key, Resource>
    var account: Account
    var keys: Table<SetupKey>
    var networks: Table<string>
    var routers: Table<Router>
    var netResources: Table<nat>
    /** Working copy of the status of the peer being reconciled. */
    var status: Status

    constructor (w: World)
      ensures State() == w
    {
      peer, secret, deployment, group := w.peer, w.secret, w.deployment, w.group;
      resources, account, keys, networks := w.resources, w.account, w.keys, w.networks;
      routers, netResources := w.routers, w.netResources;
      status := Status(None, None, None);
    }

    function State(): World
      reads this
    {
      World(peer, secret, deployment, group, resources, account, keys, networks, routers, netResources)
    }

    method HandleNetwork(c: Pass) returns (stop: bool)
      modifies this
      ensures Work(State(), status, if stop then Stop else Go) == AfterNetwork(c, Work(old(State()), old(status), Go))
      ensures !stop ==> status.network.Some?
      ensures !stop && old(status).network == None && Faithful(c, old(State())) ==>
              networks.Live(status.network) && networks.rows[status.network.value] == c.name
      ensures Faithful(c, old(State())) && UniqueNetworks(old(State())) ==> UniqueNetworks(State())
    {
      if status.network == None {
        if ListNetworks in c.down {
          return true;
        }
        if c.foundNetwork != None {
          status := status.(network := c.foundNetwork);
        } else {
          if CreateNetwork in c.down {
            return true;
          }
          status := status.(network := Some(networks.next));
          networks := networks.Add(c.name);
        }
      }
      return false;
    }

    method HandleGroup(c: Pass) returns (stop: bool)
      modifies this
      ensures Work(State(), status, if stop then Stop else Go) == AfterGroup(c, Work(old(State()), old(status), Go))
      ensures !stop ==> group.Some? && group.value.id.Some?
    {
      if GetGroup in c.down {
        return true;
      }
      if group == None {
        if CreateGroup in c.down {
          return true;
        }
        group := Some(Group(c.name, [GROUP_CLEANUP, ROUTING_PEER_CLEANUP], None));
        return true;
      }
      return group.value.id == None;
    }

    method HandleSetupKey(c: Pass, groupId: string) returns (stop: bool)
      modifies this
      ensures Work(State(), status, if stop then Stop else Go)
           == AfterKey(c, groupId, Work(old(State()), old(status), Go))
      ensures forall id :: id in keys.rows && id !in old(keys).rows ==>
                keys.rows[id] == SetupKey(c.plain, false, groupId)
    {
      if status.key == None {
        if CreateKey in c.down {
          return true;
        }
        status := status.(key := Some(keys.next));
        keys := keys.Add(SetupKey(c.plain, false, groupId));
        if CreateSecret in c.down {
          return true;
        }
        if secret != None {
          // the Secret already exists
          if GetSecret in c.down {
            return true;
          }
          if UpdateSecret in c.down {
            return true;
          }
        }
        secret := Some(Some(c.plain));
        return false;
      }
      if GetKey in c.down {
        return true;
      }
      var id := status.key.value;
      if id !in keys.rows || keys.rows[id].revoked {
        if id in keys.rows {
          if DeleteKey in c.down {
            return true;
          }
          keys := keys.Drop(id);
        }
        status := status.(key := None);
        return true;
      }
      if GetSecret in c.down {
        return true;
      }
      if secret == None || secret.value == None {
        if DeleteKey in c.down {
          return true;
        }
        keys := keys.Drop(id);
        status := status.(key := None);
        return true;
      }
      return false;
    }

    method HandleRouter(c: Pass, groupId: string) returns (stop: bool)
      requires status.network.Some?
      modifies this
      ensures Work(State(), status, if stop then Stop else Go)
           == AfterRouter(c, groupId, Work(old(State()), old(status), Go))
      ensures group == old(group) && account == old(account)
      ensures Faithful(c, old(State())) && OneRouter(old(State())) ==> OneRouter(State())
      ensures !stop && Faithful(c, old(State())) ==> status.router.Some? && Served(State(), status.network.value)
      ensures !stop && Faithful(c, old(State())) && OneRouter(old(State())) && old(status).router.Some? ==>
              forall r :: r in routers.rows && routers.rows[r].network == status.network.value ==>
                routers.rows[r] == Router(status.network.value, true, true, 9999, [groupId])
    {
      if ListRouters in c.down {
        return true;
      }
      var network := status.network.value;
      var listed := RouterListed(c, routers, network);
      if status.router == None || !listed {
        if listed {
          status := status.(router := Some(c.firstRouter[network]));
        } else {
          if CreateRouter in c.down {
            return true;
          }
          status := status.(router := Some(routers.next));
          routers := routers.Add(WantedRouter(network, groupId));
          assert routers.rows[status.router.value].network == network;
        }
      } else {
        var r := routers.rows[c.firstRouter[network]];
        if !r.enabled || !r.masquerade || r.metric != METRIC || |r.groups| != 1 || r.groups[0] != groupId {
          if UpdateRouter in c.down {
            return true;
          }
          r := r.(enabled := true, masquerade := true, metric := METRIC, groups := [groupId]);
          routers := routers.Put(c.firstRouter[network], r);
        }
      }
      assert listed && Faithful(c, old(State())) ==> routers.rows[c.firstRouter[network]].network == network;
      return false;
    }

    /** Runs the exempt-list edit on this account. */
    method EditExempt(c: Pass, groupId: string, exempt: bool) returns (stop: bool)
      modifies this`account
      ensures Work(State(), status, if stop then Stop else Go)
           == AfterExempt(c, groupId, exempt, Work(old(State()), status, Go))
    {
      var settings := new ExemptSettings(account);
      if exempt {
        stop := settings.HandleAdmissionExempt(Some(groupId), Some(exempt), ListAccounts in c.down,
            UpdateAccount in c.down);
      } else {
        stop := settings.RemoveAdmissionExempt(groupId, ListAccounts in c.down, UpdateAccount in c.down);
      }
      account := settings.account;
    }

    /** Everything between the read of a live peer and the deferred write. */
    method Stages(c: Pass, p: Peer) returns (stop: bool)
      requires status == p.status
      modifies this
      ensures Work(State(), status, if stop then Stop else Go) == AfterStages(c, p, old(State()))
    {
      stop := HandleNetwork(c);
      if stop {
        return true;
      }
      stop := HandleGroup(c);
      if stop {
        return true;
      }
      var groupId := group.value.id.value;
      stop := HandleSetupKey(c, groupId);
      if stop {
        return true;
      }
      stop := HandleRouter(c, groupId);
      if stop {
        return true;
      }
      stop := EditExempt(c, groupId, if p.exempt.Some? then p.exempt.value else true);
      if stop || ApplyDeployment in c.down {
        return true;
      }
      deployment := true;
      return false;
    }

    method DeleteResources(c: Pass, network: nat) returns (stop: bool)
      modifies this`resources
      ensures Work(State(), status, if stop then Stop else Go)
           == AfterDeleteResources(c, network, |c.order|, Work(old(State()), status, Go))
    {
      for i := 0 to |c.order|
        invariant Work(State(), status, Go) == AfterDeleteResources(c, network, i, Work(old(State()), status, Go))
      {
        var k := c.order[i];
        if k in resources && resources[k].network == network {
          if DeleteResource(k) in c.down {
            DeletesStop(c, network, i + 1, Work(old(State()), status, Go));
            return true;
          }
          if resources[k].guarded {
            resources := resources[k := resources[k].(deleting := true)];
          } else {
            resources := resources - {k};
          }
        }
      }
      return false;
    }

    method DeleteNetworkStage(c: Pass) returns (stop: bool)
      modifies this
      ensures Work(State(), status, if stop then Stop else Go)
           == AfterDeleteNetwork(c, Work(old(State()), old(status), Go))
    {
      if status.network == None {
        return false;
      }
      if ListResources in c.down {
        return true;
      }
      stop := DeleteResources(c, status.network.value);
      if stop {
        return true;
      }
      if |c.order| == 0 {
        if DeleteNetwork in c.down {
          return true;
        }
        networks := networks.Drop(status.network.value);
        status := status.(network := None, router := None);
      }
      return false;
    }

    /** handleDelete up to the test of the recorded network. */
    method Teardown(c: Pass, p: Peer) returns (stop: bool)
      requires status == p.status
      modifies this
      ensures Work(State(), status, if stop then Stop else Go) == AfterTeardown(c, p, old(State()))
    {
      if GetDeployment in c.down {
        return true;
      }
      if deployment {
        if DeleteDeployment in c.down {
          return true;
        }
        deployment := false;
      }
      if status.key != None {
        if DeleteKey in c.down {
          return true;
        }
        keys := keys.Drop(status.key.value);
        status := status.(key := None);
      }
      if GetGroup in c.down {
        return true;
      }
      stop := DeleteNetworkStage(c);
      if stop {
        return true;
      }
      if group != None && group.value.specName != "" && ROUTING_PEER_CLEANUP in group.value.finalizers {
        var rest := Without(group.value.finalizers, ROUTING_PEER_CLEANUP);
        if UpdateGroup in c.down {
          return true;
        }
        group := Some(group.value.(finalizers := rest));
      }
      if group != None && group.value.id != None {
        stop := EditExempt(c, group.value.id.value, false);
      }
    }

    method Reconcile(c: Pass)
      modifies this
      ensures State() == AfterPass(c, old(State()))
    {
      if GetPeer in c.down || peer == None {
        return;
      }
      var p := peer.value;
      status := p.status;
      var stop;
      if p.deleting {
        if p.finalizers == [] {
          return;
        }
        stop := Teardown(c, p);
        if !stop && status.network == None {
          if UpdatePeer !in c.down {
            peer := None;
          }
          return;
        }
      } else {
        stop := Stages(c, p);
      }
      if WriteStatus !in c.down {
        peer := Some(p.(status := status));
      }
    }
  }

  lemma {:induction false} DeletesStop(c: Pass, network: nat, n: nat, s: Work)
    requires n <= |c.order| && AfterDeleteResources(c, network, n, s).verdict.Stop?
    ensures AfterDeleteResources(c, network, |c.order|, s) == AfterDeleteResources(c, network, n, s)
    decreases |c.order| - n
  {
    if n < |c.order| {
      DeletesStop(c, network, n + 1, s);
    }
  }
}
