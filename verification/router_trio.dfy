// Three v1alpha1 controllers that wait on each other's status: NetworkRouter, Group and SetupKey
// (networkrouter_controller.go:46-186, 293-313, group_controller.go:27-91, setupkey_controller.go).
module RouterTrio {
  import opened GroupRefs
  import opened Tables
  import SetupKeys

  datatype Router = Router(network: Option<nat>, peer: Option<nat>, deleting: bool)

  /** A v1alpha1 Group object. Its name is derived from a network ID, which stands for it here. */
  datatype Group = Group(name: nat, status: Option<nat>, deleting: bool)

  datatype PeerRow = PeerRow(network: nat, groups: seq<nat>)

  /** The router, its Group and SetupKey (with the Secret and the server's keys), and the server. */
  datatype World = World(
    router: Option<Router>,
    group: Option<Group>,
    key: SetupKeys.World,
    zone: bool,
    networks: Table<()>,
    groups: Table<nat>,
    peers: Table<PeerRow>)

  datatype RouterCall =
    | GetRouter | ListZones | UpdateNetwork | CreateNetwork | PatchNetwork | ApplyGroup | GetGroup
    | ApplyKey | GetKeyObject | UpdatePeer | CreatePeer | PatchPeer | DeletePeer | DeleteNetwork | RemoveFinalizer

  datatype GroupCall = GetGroupObject | PatchFinalizer | UpdateGroup | CreateGroup | PatchStatus | DeleteGroup

  function Directory(w: World): GroupRefs.Directory {
    GroupRefs.Directory(map[], w.groups.rows.Keys, map[])
  }

  // ----- NetworkRouter -----

  /** Update-or-create of a network: the store after it and the ID, None when a call failed. */
  function SyncedNetwork(down: set<RouterCall>, w: World, known: Option<nat>): (Table<()>, Option<nat>) {
    if known.Some? && UpdateNetwork in down then (w.networks, None)
    else if w.networks.Live(known) then (w.networks, known)
    else if CreateNetwork in down then (w.networks, None)
    else (w.networks.Add(()), Some(w.networks.next))
  }

  /** Update-or-create of the routing peer in its network. */
  function SyncedPeer(down: set<RouterCall>, w: World, known: Option<nat>, row: PeerRow)
    : (Table<PeerRow>, Option<nat>)
  {
    if known.Some? && UpdatePeer in down then (w.peers, None)
    else if w.peers.Live(known) && w.peers.rows[known.value].network == row.network
    then (w.peers.Put(known.value, row), known)
    else if CreatePeer in down then (w.peers, None)
    else (w.peers.Add(row), Some(w.peers.next))
  }

  /** The SetupKey object after a server-side apply of its references. */
  function Applied(o: Option<SetupKeys.Object>, group: nat): SetupKeys.Object {
    if o == None then SetupKeys.Object(None, [ById(group)], false, false) else o.value.(refs := [ById(group)])
  }

  function AfterNetwork(down: set<RouterCall>, w: World): (World, bool)
    requires w.router.Some?
  {
    var (networks, id) := SyncedNetwork(down, w, w.router.value.network);
    var v := w.(networks := networks);
    if id == None || PatchNetwork in down then (v, false)
    else (v.(router := Some(v.router.value.(network := id))), true)
  }

  function AfterApplies(down: set<RouterCall>, w: World): (World, bool)
    requires w.router.Some? && w.router.value.network.Some?
  {
    if ApplyGroup in down then (w, false)
    else
      var name := w.router.value.network.value;
      var v := w.(group := Some(if w.group == None then Group(name, None, false) else w.group.value.(name := name)));
      if GetGroup in down || v.group.value.status == None || ApplyKey in down then (v, false)
      else
        var u := v.(key := v.key.(obj := Some(Applied(v.key.obj, v.group.value.status.value))));
        (u, GetKeyObject !in down && u.key.obj.value.status.Some?)
  }

  function AfterPeer(down: set<RouterCall>, w: World): World
    requires w.router.Some? && w.router.value.network.Some? && w.group.Some? && w.group.value.status.Some?
  {
    var row := PeerRow(w.router.value.network.value, [w.group.value.status.value]);
    var (peers, id) := SyncedPeer(down, w, w.router.value.peer, row);
    var v := w.(peers := peers);
    if id == None || PatchPeer in down then v else v.(router := Some(v.router.value.(peer := id)))
  }

  function AfterRouterDelete(down: set<RouterCall>, w: World): World
    requires w.router.Some?
  {
    var r := w.router.value;
    if r.peer.Some? && DeletePeer in down then w
    else
      var v := if w.peers.Live(r.peer) && r.network == Some(w.peers.rows[r.peer.value].network)
               then w.(peers := w.peers.Drop(r.peer.value)) else w;
      if r.network.Some? && DeleteNetwork in down then v
      else
        var u := if r.network.Some? then v.(networks := v.networks.Drop(r.network.value)) else v;
        if RemoveFinalizer in down then u else u.(router := None)
  }

  /** The pass up to the routing peer; what follows only concerns the Deployment. */
  function AfterRouterPass(down: set<RouterCall>, w: World): World {
    if GetRouter in down || w.router == None then w
    else if w.router.value.deleting then AfterRouterDelete(down, w)
    else if ListZones in down || !w.zone then w
    else
      var (u, recorded) := AfterNetwork(down, w);
      if !recorded then u
      else
        var (v, ready) := AfterApplies(down, u);
        if !ready then v else AfterPeer(down, v)
  }

  // ----- Group -----

  function AfterGroupDelete(down: set<GroupCall>, w: World): World
    requires w.group.Some?
  {
    var id := w.group.value.status;
    if id.Some? && DeleteGroup in down then w
    else
      var v := if id.Some? then w.(groups := w.groups.Drop(id.value)) else w;
      if PatchFinalizer in down then v else v.(group := None)
  }

  function AfterGroupPass(down: set<GroupCall>, w: World): World {
    if GetGroupObject in down || w.group == None then w
    else if w.group.value.deleting then AfterGroupDelete(down, w)
    else if PatchFinalizer in down then w
    else
      var g := w.group.value;
      if g.status.Some? && UpdateGroup in down then w
      else if w.groups.Live(g.status) then w.(groups := w.groups.Put(g.status.value, g.name))
      else if CreateGroup in down then w
      else
        var v := w.(groups := w.groups.Add(g.name));
        if PatchStatus in down then v else v.(group := Some(g.(status := Some(w.groups.next))))
  }

  // ----- SetupKey -----

  ghost function AfterKeyPass(c: SetupKeys.Pass, w: World): World {
    w.(key := SetupKeys.AfterPass(c, Directory(w), w.key))
  }

  class RouterControllers {
    var router: Option<Router>
    var group: Option<Group>
    var key: SetupKeys.World
    var zone: bool
    var networks: Table<()>
    var groups: Table<nat>
    var peers: Table<PeerRow>

    constructor (w: World)
      ensures State() == w
    {
      router, group, key, zone := w.router, w.group, w.key, w.zone;
      networks, groups, peers := w.networks, w.groups, w.peers;
    }

    function State(): World
      reads this
    {
      World(router, group, key, zone, networks, groups, peers)
    }

    method SyncNetwork(down: set<RouterCall>, known: Option<nat>) returns (id: Option<nat>)
      modifies this`networks
      ensures (networks, id) == SyncedNetwork(down, old(State()), known)
    {
      if known != None {
        if UpdateNetwork in down {
          return None;
        }
        if known.value in networks.rows {
          return known;
        }
      }
      if CreateNetwork in down {
        return None;
      }
      id := Some(networks.next);
      networks := networks.Add(());
    }

    method SyncPeer(down: set<RouterCall>, known: Option<nat>, row: PeerRow) returns (id: Option<nat>)
      modifies this`peers
      ensures (peers, id) == SyncedPeer(down, old(State()), known, row)
    {
      if known != None {
        if UpdatePeer in down {
          return None;
        }
        if known.value in peers.rows && peers.rows[known.value].network == row.network {
          peers := peers.Put(known.value, row);
          return known;
        }
      }
      if CreatePeer in down {
        return None;
      }
      id := Some(peers.next);
      peers := peers.Add(row);
    }

    method DeleteRouter(down: set<RouterCall>)
      requires router.Some?
      modifies this
      ensures State() == AfterRouterDelete(down, old(State()))
    {
      var r := router.value;
      if r.peer != None {
        if DeletePeer in down {
          return;
        }
        if r.peer.value in peers.rows && r.network == Some(peers.rows[r.peer.value].network) {
          peers := peers.Drop(r.peer.value);
        }
      }
      if r.network != None {
        if DeleteNetwork in down {
          return;
        }
        networks := networks.Drop(r.network.value);
      }
      if RemoveFinalizer in down {
        return;
      }
      router := None;
    }

    method ReconcileRouter(down: set<RouterCall>)
      modifies this
      ensures State() == AfterRouterPass(down, old(State()))
    {
      if GetRouter in down || router == None {
        return;
      }
      if router.value.deleting {
        DeleteRouter(down);
        return;
      }
      if ListZones in down || !zone {
        return;
      }
      var networkId := SyncNetwork(down, router.value.network);
      if networkId == None || PatchNetwork in down {
        return;
      }
      router := Some(router.value.(network := networkId));

      if ApplyGroup in down {
        return;
      }
      if group == None {
        group := Some(Group(networkId.value, None, false));
      } else {
        group := Some(group.value.(name := networkId.value));
      }
      if GetGroup in down || group.value.status == None {
        return;
      }
      var groupId := group.value.status.value;

      if ApplyKey in down {
        return;
      }
      key := key.(obj := Some(Applied(key.obj, groupId)));
      if GetKeyObject in down || key.obj.value.status == None {
        return;
      }

      var peerId := SyncPeer(down, router.value.peer, PeerRow(networkId.value, [groupId]));
      if peerId == None || PatchPeer in down {
        return;
      }
      router := Some(router.value.(peer := peerId));
    }

    method ReconcileGroup(down: set<GroupCall>)
      modifies this
      ensures State() == AfterGroupPass(down, old(State()))
    {
      if GetGroupObject in down || group == None {
        return;
      }
      var g := group.value;
      if g.deleting {
        if g.status != None {
          if DeleteGroup in down {
            return;
          }
          groups := groups.Drop(g.status.value);
        }
        if PatchFinalizer !in down {
          group := None;
        }
        return;
      }
      if PatchFinalizer in down {
        return;
      }
      if g.status != None {
        if UpdateGroup in down {
          return;
        }
        if g.status.value in groups.rows {
          groups := groups.Put(g.status.value, g.name);
          return;
        }
      }
      if CreateGroup in down {
        return;
      }
      var id := groups.next;
      groups := groups.Add(g.name);
      if PatchStatus in down {
        return;
      }
      group := Some(g.(status := Some(id)));
    }

    method ReconcileKey(c: SetupKeys.Pass)
      modifies this`key
      ensures State() == AfterKeyPass(c, old(State()))
    {
      var controller := new SetupKeys.SetupKeyReconciler(key);
      var _ := controller.Reconcile(c, GroupRefs.Directory(map[], groups.rows.Keys, map[]));
      key := controller.State();
    }
  }

  // ----- progress -----

  function GroupStatus(w: World): Option<nat> {
    if w.group.Some? then w.group.value.status else None
  }

  function KeyStatus(w: World): Option<nat> {
    if w.key.obj.Some? then w.key.obj.value.status else None
  }

  /** The recorded key is usable, long enough to compare, handed out, and asked for the group it serves. */
  ghost predicate GoodKey(w: World) {
    && w.key.keys.Live(KeyStatus(w))
    && var k := w.key.keys.rows[KeyStatus(w).value];
    && k.state == SetupKeys.Valid && |k.plain| >= 5 && w.key.secret == Some(Some(k.plain))
  }

  ghost predicate Shape(w: World) {
    && w.zone && w.router.Some? && !w.router.value.deleting
    && (w.group.Some? ==> !w.group.value.deleting) && (w.key.obj.Some? ==> !w.key.obj.value.deleting)
    // each stage presupposes the one before
    && (w.group.Some? ==> w.router.value.network.Some?)
    && (w.key.obj.Some? ==> GroupStatus(w).Some?)
    && (w.router.value.peer.Some? ==> KeyStatus(w).Some?)
    // the server holds the recorded networks, keys and peers, and nothing else
    && w.networks.rows.Keys == Ids(w.router.value.network)
    && w.key.keys.rows.Keys == Ids(KeyStatus(w))
    && w.peers.rows.Keys == Ids(w.router.value.peer)
    && (KeyStatus(w).Some? ==> GoodKey(w))
    // the group object carries the name of the recorded network, and so does its group on the server
    && (w.group.Some? ==> w.group.value.name == w.router.value.network.value)
    && (w.group.Some? && w.groups.Live(GroupStatus(w)) ==> w.groups.rows[GroupStatus(w).value] == w.group.value.name)
    && (w.router.value.peer.Some? ==> w.peers.rows[w.router.value.peer.value].network == w.router.value.network.value)
  }

  /** Consistent: the recorded group is the only one on the server, and everything refers to it. */
  ghost predicate Consistent(w: World) {
    && Shape(w)
    && w.groups.rows.Keys == Ids(GroupStatus(w))
    && (w.key.obj.Some? ==> w.key.obj.value.refs == [ById(GroupStatus(w).value)])
    && (KeyStatus(w).Some? ==> w.key.keys.rows[KeyStatus(w).value].groups == [GroupStatus(w).value])
    && (w.router.value.peer.Some? ==> w.peers.rows[w.router.value.peer.value].groups == [GroupStatus(w).value])
  }

  function One(unset: bool): nat {
    if unset then 1 else 0
  }

  /** How many of network, group, key and routing peer are not recorded yet. */
  function Unset(w: World): nat {
    One(w.router.Some? && w.router.value.network == None) + One(GroupStatus(w) == None)
    + One(KeyStatus(w) == None) + One(w.router.Some? && w.router.value.peer == None)
  }

  /** Also counts the two objects still to be applied. */
  function Missing(w: World): nat {
    Unset(w) + One(w.group == None) + One(w.key.obj == None)
  }

  ghost predicate CleanKeyPass(c: SetupKeys.Pass) {
    c.down == {} && |c.plain| >= 5
  }

  lemma NetworkStage(w: World)
    requires Consistent(w)
    ensures var v := AfterNetwork({}, w);
            && v.1 && Consistent(v.0) && v.0.router.value.network.Some?
            && v.0 == w.(router := v.0.router, networks := v.0.networks)
            && v.0.router.value == w.router.value.(network := v.0.router.value.network)
            && (w.router.value.network.Some? ==> v.0 == w)
  {
  }

  lemma AppliesStage(w: World)
    requires Consistent(w) && w.router.value.network.Some?
    ensures var v := AfterApplies({}, w);
            && Consistent(v.0) && v.0 == w.(group := v.0.group, key := v.0.key) && v.0.group.Some?
            && GroupStatus(v.0) == GroupStatus(w) && KeyStatus(v.0) == KeyStatus(w)
            && (GroupStatus(w).Some? ==> v.0.key.obj.Some?) && (w.key.obj.Some? ==> v.0.key.obj.Some?)
            && (v.1 <==> KeyStatus(w).Some?)
  {
  }

  lemma PeerStage(w: World)
    requires Consistent(w) && w.router.value.network.Some? && KeyStatus(w).Some?
    ensures var v := AfterPeer({}, w);
            && Consistent(v) && v == w.(router := v.router, peers := v.peers) && v.router.value.peer.Some?
            && v.router.value.network == w.router.value.network
  {
  }

  lemma RouterStep(w: World)
    requires Consistent(w)
    ensures var v := AfterRouterPass({}, w);
            && Consistent(v) && Missing(v) <= Missing(w) && Unset(v) <= Unset(w)
            && v.router.value.network.Some? && v.group.Some?
            && GroupStatus(v) == GroupStatus(w) && KeyStatus(v) == KeyStatus(w)
            && (GroupStatus(w).Some? ==> v.key.obj.Some?)
            && (KeyStatus(w).Some? ==> v.router.value.peer.Some?)
            && (w.key.obj.Some? ==> v.key.obj.Some?) && (w.router.value.peer.Some? ==> v.router.value.peer.Some?)
  {
    NetworkStage(w);
    var u := AfterNetwork({}, w).0;
    AppliesStage(u);
    if KeyStatus(u).Some? {
      PeerStage(AfterApplies({}, u).0);
    }
  }

  lemma GroupStep(w: World)
    requires Consistent(w)
    ensures var v := AfterGroupPass({}, w);
            && Consistent(v) && v.router == w.router && v.key == w.key
            && (v.group.Some? <==> w.group.Some?) && (w.group.Some? ==> GroupStatus(v).Some?)
            && (GroupStatus(w).Some? ==> GroupStatus(v) == GroupStatus(w))
  {
  }

  lemma KeyStep(c: SetupKeys.Pass, w: World)
    requires Consistent(w) && CleanKeyPass(c)
    ensures var v := AfterKeyPass(c, w);
            && Consistent(v) && v.router == w.router && v.group == w.group
            && (v.key.obj.Some? <==> w.key.obj.Some?) && (w.key.obj.Some? ==> KeyStatus(v).Some?)
            && (KeyStatus(w).Some? ==> KeyStatus(v) == KeyStatus(w))
  {
    if w.key.obj.Some? {
      SingleRef(Directory(w), GroupStatus(w).value);
      assert SetupKeys.LookupsDown(c, w.key.obj.value.refs) == {};
    }
  }

  lemma SingleRef(d: GroupRefs.Directory, id: nat)
    ensures Targets(d, [ById(id)]) == if id in d.ids then [id] else []
    ensures Resolves(d, [ById(id)], {}) <==> id in d.ids
  {
    var refs := [ById(id)];
    assert refs[..0] == [];
    assert Targets(d, refs[..0]) == [];
    assert Unresolved(d, refs, {}, 0) <==> id !in d.ids;
  }

  ghost function Round(c: SetupKeys.Pass, w: World): World {
    AfterKeyPass(c, AfterGroupPass({}, AfterRouterPass({}, w)))
  }

  /** A clean round of the three controllers records at least one more stage. */
  lemma RoundMakesProgress(c: SetupKeys.Pass, w: World)
    requires Consistent(w) && CleanKeyPass(c)
    ensures Consistent(Round(c, w)) && Unset(Round(c, w)) <= Unset(w)
    ensures Unset(w) > 0 ==> Unset(Round(c, w)) < Unset(w)
  {
    var u := AfterRouterPass({}, w);
    RouterStep(w);
    GroupStep(u);
    KeyStep(c, AfterGroupPass({}, u));
  }

  /** By the third NetworkRouter pass all four are recorded, the server holds exactly one of each, and the
      routing peer's group is the key's auto group. */
  lemma ThirdRouterPassCompletes(c1: SetupKeys.Pass, c2: SetupKeys.Pass, w: World)
    requires Consistent(w) && CleanKeyPass(c1) && CleanKeyPass(c2)
    ensures var v := AfterRouterPass({}, Round(c2, Round(c1, w)));
            && Consistent(v) && Unset(v) == 0
            && |v.networks.rows| == |v.groups.rows| == |v.key.keys.rows| == |v.peers.rows| == 1
            && v.peers.rows[v.router.value.peer.value].groups == v.key.keys.rows[KeyStatus(v).value].groups ==
                 [GroupStatus(v).value]
  {
    var w1, w2 := Round(c1, w), Round(c2, Round(c1, w));
    var u1 := AfterRouterPass({}, w);
    RouterStep(w);
    GroupStep(u1);
    KeyStep(c1, AfterGroupPass({}, u1));
    var u2 := AfterRouterPass({}, w1);
    RouterStep(w1);
    GroupStep(u2);
    KeyStep(c2, AfterGroupPass({}, u2));
    RouterStep(w2);
    var v := AfterRouterPass({}, w2);
    OneRow(v.networks, v.router.value.network);
    OneRow(v.groups, GroupStatus(v));
    OneRow(v.key.keys, KeyStatus(v));
    OneRow(v.peers, v.router.value.peer);
  }

  lemma OneRow<V>(t: Table<V>, id: Option<nat>)
    requires t.rows.Keys == Ids(id) && id.Some?
    ensures |t.rows| == 1
  {
    assert |t.rows.Keys| == 1;
  }

  // ----- any order -----

  datatype Controller = RouterC | GroupC | KeyC

  ghost function Act(x: Controller, c: SetupKeys.Pass, w: World): World {
    match x
    case RouterC => AfterRouterPass({}, w)
    case GroupC => AfterGroupPass({}, w)
    case KeyC => AfterKeyPass(c, w)
  }

  /** The controller whose turn it is to record or apply something. */
  function Turn(w: World): Controller {
    if w.group == None || (GroupStatus(w).Some? && w.key.obj == None) || KeyStatus(w).Some? then RouterC
    else if GroupStatus(w) == None then GroupC
    else KeyC
  }

  lemma ActStep(x: Controller, c: SetupKeys.Pass, w: World)
    requires Consistent(w) && CleanKeyPass(c)
    ensures Consistent(Act(x, c, w)) && Missing(Act(x, c, w)) <= Missing(w)
    ensures x == Turn(w) && Missing(w) > 0 ==> Missing(Act(x, c, w)) < Missing(w)
    ensures x != Turn(w) && Missing(Act(x, c, w)) == Missing(w) ==> Turn(Act(x, c, w)) == Turn(w)
  {
    match x {
      case RouterC => RouterStep(w);
      case GroupC => GroupStep(w);
      case KeyC => KeyStep(c, w);
    }
  }

  /** Whatever the order in which the three controllers run, a clean round makes progress. */
  lemma AnyOrderMakesProgress(x: Controller, y: Controller, z: Controller, c: SetupKeys.Pass, w: World)
    requires Consistent(w) && CleanKeyPass(c) && x != y && y != z && x != z
    ensures var v := Act(z, c, Act(y, c, Act(x, c, w)));
            Consistent(v) && Missing(v) <= Missing(w) && (Missing(w) > 0 ==> Missing(v) < Missing(w))
  {
    var a := Act(x, c, w);
    var b := Act(y, c, a);
    ActStep(x, c, w);
    ActStep(y, c, a);
    ActStep(z, c, b);
    assert Turn(w) == x || Turn(w) == y || Turn(w) == z;
  }

  /** A clean round of the three controllers in some order. */
  datatype AnyRound = AnyRound(x: Controller, y: Controller, z: Controller, c: SetupKeys.Pass)

  ghost predicate Complete(r: AnyRound) {
    CleanKeyPass(r.c) && r.x != r.y && r.y != r.z && r.x != r.z
  }

  ghost function AfterRounds(rounds: seq<AnyRound>, w: World): World {
    if rounds == [] then w
    else
      var r := rounds[|rounds| - 1];
      Act(r.z, r.c, Act(r.y, r.c, Act(r.x, r.c, AfterRounds(rounds[..|rounds| - 1], w))))
  }

  lemma OneMoreRound(r: AnyRound, u: World, v: World)
    requires Consistent(u) && Complete(r) && v == Act(r.z, r.c, Act(r.y, r.c, Act(r.x, r.c, u)))
    ensures Consistent(v) && Missing(v) <= Missing(u) && (Missing(u) > 0 ==> Missing(v) < Missing(u))
  {
    AnyOrderMakesProgress(r.x, r.y, r.z, r.c, u);
  }

  /** At most six things can be missing, so six clean rounds in any orders complete, and so does any longer run. */
  lemma {:induction false} SixRoundsComplete(rounds: seq<AnyRound>, w: World)
    requires Consistent(w) && forall i :: 0 <= i < |rounds| ==> Complete(rounds[i])
    ensures var v := AfterRounds(rounds, w);
            && Consistent(v) && (Missing(v) == 0 || Missing(v) + |rounds| <= Missing(w))
            && (|rounds| >= 6 ==> Missing(v) == 0 && Unset(v) == 0)
  {
    if rounds != [] {
      var n := |rounds| - 1;
      var r := rounds[n];
      SixRoundsComplete(rounds[..n], w);
      assert Complete(r);
      OneMoreRound(r, AfterRounds(rounds[..n], w), AfterRounds(rounds, w));
    }
  }

  // ----- recovery -----

  /** If the remote group is deleted from a completed state, two clean rounds bring everything to one new
      group: object, key and routing peer agree again, and the server holds one of each. */
  lemma GroupLossRecovers(c1: SetupKeys.Pass, c2: SetupKeys.Pass, w: World)
    requires Consistent(w) && Unset(w) == 0 && CleanKeyPass(c1) && CleanKeyPass(c2)
    ensures var lost := w.(groups := w.groups.Drop(GroupStatus(w).value));
            var v := Round(c2, Round(c1, lost));
            && Consistent(v) && Unset(v) == 0
            && GroupStatus(v) == Some(w.groups.next) && KeyStatus(v) == KeyStatus(w)
            && v.router == w.router
            && v.peers.rows[v.router.value.peer.value].groups == v.key.keys.rows[KeyStatus(v).value].groups ==
                 [w.groups.next]
  {
    var lost := w.(groups := w.groups.Drop(GroupStatus(w).value));
    var u := Round(c1, lost);
    LossRound(c1, w, lost);
    RecoveryRound(c2, u, w.groups.next);
  }

  /** Whatever fails: no router pass moves a routing peer to another network. One goes only with its router, as the
      recorded peer of the recorded network; one that is made belongs to the router's network and group. */
  lemma PeersStayInNetwork(down: set<RouterCall>, w: World)
    ensures var v := AfterRouterPass(down, w);
            && (forall id :: id in w.peers.rows && id in v.peers.rows ==>
                  v.peers.rows[id].network == w.peers.rows[id].network)
            && (forall id :: id in w.peers.rows && id !in v.peers.rows ==>
                  && w.router.Some? && w.router.value.deleting && w.router.value.peer == Some(id)
                  && w.router.value.network == Some(w.peers.rows[id].network))
            && (forall id :: id in v.peers.rows && id !in w.peers.rows ==>
                  && v.router.Some? && v.router.value.network == Some(v.peers.rows[id].network)
                  && GroupStatus(v).Some? && v.peers.rows[id].groups == [GroupStatus(v).value])
  {
  }

  /** If the remote network is deleted from a completed state, its routing peer with it, one clean round brings
      everything to a new network: the router records it, the group takes its name, on the server too, and a routing
      peer of the same group is made in it. */
  lemma NetworkLossRecovers(c: SetupKeys.Pass, w: World)
    requires Consistent(w) && Unset(w) == 0 && CleanKeyPass(c)
    ensures var lost := w.(networks := w.networks.Drop(w.router.value.network.value),
                           peers := w.peers.Drop(w.router.value.peer.value));
            var v := Round(c, lost);
            && Consistent(v) && Unset(v) == 0
            && v.router.value.network == Some(w.networks.next) && v.router.value.peer == Some(w.peers.next)
            && v.group == Some(w.group.value.(name := w.networks.next))
            && v.groups.rows == map[GroupStatus(w).value := w.networks.next]
            && v.peers.rows == map[w.peers.next := PeerRow(w.networks.next, [GroupStatus(w).value])]
            && KeyStatus(v) == KeyStatus(w)
  {
    var lost := w.(networks := w.networks.Drop(w.router.value.network.value),
                   peers := w.peers.Drop(w.router.value.peer.value));
    var r := AfterRouterPass({}, lost);
    NetworkLossRouter(w, lost);
    var g := AfterGroupPass({}, r);
    assert g == r.(groups := r.groups.Put(GroupStatus(w).value, w.networks.next));
    assert Consistent(g) && Unset(g) == 0;
    KeyStep(c, g);
  }

  lemma NetworkLossRouter(w: World, lost: World)
    requires Consistent(w) && Unset(w) == 0
    requires lost == w.(networks := w.networks.Drop(w.router.value.network.value),
                        peers := w.peers.Drop(w.router.value.peer.value))
    ensures var r := AfterRouterPass({}, lost);
            && r.router == Some(w.router.value.(network := Some(w.networks.next), peer := Some(w.peers.next)))
            && r.networks == lost.networks.Add(()) && r.groups == w.groups && r.zone
            && r.group == Some(w.group.value.(name := w.networks.next)) && r.key == w.key
            && r.peers == lost.peers.Add(PeerRow(w.networks.next, [GroupStatus(w).value]))
  {
    assert w.key.obj.value.(refs := [ById(GroupStatus(w).value)]) == w.key.obj.value;
  }

  /** A completed state up to the group that key and routing peer refer to. */
  ghost predicate Completed(w: World) {
    Shape(w) && Unset(w) == 0
  }

  lemma CompletedRouter(w: World)
    requires Completed(w)
    ensures var v := AfterRouterPass({}, w);
            && Completed(v) && v.router == w.router && v.groups == w.groups && v.networks == w.networks
            && GroupStatus(v) == GroupStatus(w) && KeyStatus(v) == KeyStatus(w) && v.key.keys == w.key.keys
            && v.key.obj.value.refs == [ById(GroupStatus(w).value)]
            && v.peers.rows[v.router.value.peer.value].groups == [GroupStatus(w).value]
  {
    assert AfterNetwork({}, w).0 == w;
    assert AfterApplies({}, w).1;
  }

  lemma CompletedGroup(w: World)
    requires Completed(w)
    ensures var v := AfterGroupPass({}, w);
            && Completed(v) && v == w.(group := v.group, groups := v.groups)
            && if w.groups.Live(GroupStatus(w))
                 then GroupStatus(v) == GroupStatus(w) && v.groups.rows.Keys == w.groups.rows.Keys
               else GroupStatus(v) == Some(w.groups.next) && v.groups.rows.Keys == w.groups.rows.Keys + {w.groups.next}
  {
  }

  lemma CompletedKey(c: SetupKeys.Pass, w: World)
    requires Completed(w) && CleanKeyPass(c) && |w.key.obj.value.refs| == 1 && w.key.obj.value.refs[0].ById?
    ensures var v := AfterKeyPass(c, w);
            var id := w.key.obj.value.refs[0].id;
            && Completed(v) && v == w.(key := v.key) && KeyStatus(v) == KeyStatus(w)
            && v.key.obj.value.refs == w.key.obj.value.refs
            && (id in w.groups.rows ==> v.key.keys.rows[KeyStatus(v).value].groups == [id])
  {
    var refs := w.key.obj.value.refs;
    assert refs == [ById(refs[0].id)];
    SingleRef(Directory(w), refs[0].id);
    assert SetupKeys.LookupsDown(c, refs) == {};
  }

  lemma LossRound(c: SetupKeys.Pass, w: World, lost: World)
    requires Consistent(w) && Unset(w) == 0 && CleanKeyPass(c)
    requires lost == w.(groups := w.groups.Drop(GroupStatus(w).value))
    ensures var u := Round(c, lost);
            && Completed(u) && u.router == w.router && KeyStatus(u) == KeyStatus(w)
            && u.groups.rows.Keys == {w.groups.next} && GroupStatus(u) == Some(w.groups.next)
  {
    CompletedRouter(lost);
    CompletedGroup(AfterRouterPass({}, lost));
    CompletedKey(c, AfterGroupPass({}, AfterRouterPass({}, lost)));
  }

  lemma RecoveryRound(c: SetupKeys.Pass, u: World, g: nat)
    requires Completed(u) && CleanKeyPass(c)
    requires u.groups.rows.Keys == {g} && GroupStatus(u) == Some(g)
    ensures var v := Round(c, u);
            && Consistent(v) && Unset(v) == 0 && v.router == u.router
            && KeyStatus(v) == KeyStatus(u) && GroupStatus(v) == Some(g)
  {
    CompletedRouter(u);
    CompletedGroup(AfterRouterPass({}, u));
    CompletedKey(c, AfterGroupPass({}, AfterRouterPass({}, u)));
  }
}
