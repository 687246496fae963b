// Ordered teardown: OZResource deletion and OZRoutingPeer deletion together never pull a network away
// from under a live network resource.
module Teardown {
  import opened ExemptList
  import opened Finalizers
  import opened KeyNames
  import opened RoutingPeer
  import opened RoutingPeerKeys
  import opened Slices
  import opened Tables

  datatype ResourceCall =
    | GetResource | AddFinalizer | GetRemote | CreateRemote | WriteResource
    | WithdrawPolicies | DeleteRemote | ReleaseGroups | RemoveFinalizers

  /** One OZResource pass; ready says whether handleGroups let it go on. */
  datatype ResourcePass = ResourcePass(key: Key, ready: bool, down: set<ResourceCall>)

  // ----- the network-resource side of OZResource.Reconcile (ozresource_controller.go:48-135, 403-469, 588-656) -----

  function AfterResourceDelete(c: ResourcePass, r: Resource, w: World): World {
    if WithdrawPolicies in c.down || (r.remote.Some? && DeleteRemote in c.down) then w
    else
      var v := if r.remote.Some? then w.(netResources := w.netResources.Drop(r.remote.value)) else w;
      if ReleaseGroups in c.down || RemoveFinalizers in c.down then v
      else v.(resources := v.resources - {c.key})
  }

  function AfterResourceSync(c: ResourcePass, r: Resource, w: World): World {
    if !r.guarded && AddFinalizer in c.down then w
    else
      var g := r.(guarded := true);
      var v := w.(resources := w.resources[c.key := g]);
      if !c.ready then v
      else if r.remote == None then
        if CreateRemote in c.down then v
        else
          var made := v.(netResources := v.netResources.Add(r.network));
          if WriteResource in c.down then made
          else made.(resources := v.resources[c.key := g.(remote := Some(v.netResources.next))])
      else if GetRemote in c.down || r.remote.value in v.netResources.rows || WriteResource in c.down then v
      else v.(resources := v.resources[c.key := g.(remote := None)])
  }

  function AfterResource(c: ResourcePass, w: World): World {
    if GetResource in c.down || c.key !in w.resources then w
    else if w.resources[c.key].deleting then AfterResourceDelete(c, w.resources[c.key], w)
    else AfterResourceSync(c, w.resources[c.key], w)
  }

  /** The OZResource objects and the server's network resources. */
  class ResourceReconciler {
    var resources: map<Key, Resource>
    var netResources: Table<nat>

    constructor (w: World)
      ensures resources == w.resources && netResources == w.netResources
    {
      resources, netResources := w.resources, w.netResources;
    }

    method ReconcileDelete(c: ResourcePass, ghost w: World) returns (err: bool)
      requires c.key in resources && resources == w.resources && netResources == w.netResources
      modifies this
      ensures w.(resources := resources, netResources := netResources) == AfterResourceDelete(c, w.resources[c.key], w)
    {
      var r := resources[c.key];
      if WithdrawPolicies in c.down {
        return true;
      }
      if r.remote != None {
        if DeleteRemote in c.down {
          return true;
        }
        netResources := netResources.Drop(r.remote.value);
      }
      if ReleaseGroups in c.down {
        return true;
      }
      if RemoveFinalizers in c.down {
        return true;
      }
      resources := resources - {c.key};
      return false;
    }

    /** handleopenZroResource: the status to record, or nothing when the pass stops before the status write. */
    method HandleResource(c: ResourcePass, r: Resource) returns (remote: Option<nat>, write: bool)
      modifies this`netResources
      ensures if r.remote == None && CreateRemote !in c.down
              then write && remote == Some(old(netResources.next)) && netResources == old(netResources).Add(r.network)
              else netResources == old(netResources)
      ensures r.remote == None && CreateRemote in c.down ==> !write
      ensures r.remote.Some? ==> (write <==> GetRemote !in c.down)
      ensures r.remote.Some? && write ==> remote == if netResources.Live(r.remote) then r.remote else None
    {
      if r.remote == None {
        if CreateRemote in c.down {
          return None, false;
        }
        remote := Some(netResources.next);
        netResources := netResources.Add(r.network);
        return remote, true;
      }
      if GetRemote in c.down {
        return r.remote, false;
      }
      if r.remote.value !in netResources.rows {
        // deleted elsewhere: forget it and requeue
        return None, true;
      }
      return r.remote, true;
    }

    method Reconcile(c: ResourcePass, ghost w: World)
      requires resources == w.resources && netResources == w.netResources
      modifies this
      ensures w.(resources := resources, netResources := netResources) == AfterResource(c, w)
    {
      if GetResource in c.down || c.key !in resources {
        return;
      }
      var r := resources[c.key];
      if r.deleting {
        var _ := ReconcileDelete(c, w);
        return;
      }
      if !r.guarded {
        if AddFinalizer in c.down {
          return;
        }
        r := r.(guarded := true);
      }
      resources := resources[c.key := r];
      if !c.ready {
        return;
      }
      var remote, write := HandleResource(c, r);
      if write && WriteResource !in c.down {
        resources := resources[c.key := r.(remote := remote)];
      }
    }
  }

  // ----- per pass -----

  /** v's OZResources are w's, some of them marked for deletion and some unguarded ones gone. */
  ghost predicate OnlyDeletes(w: World, v: World) {
    && (forall k :: k in v.resources ==> k in w.resources)
    && (forall k :: k in v.resources ==> v.resources[k] == w.resources[k].(deleting := v.resources[k].deleting))
    && (forall k :: k in w.resources && w.resources[k].guarded ==> k in v.resources)
  }

  lemma {:induction false} DeletesKeep(c: Pass, network: nat, n: nat, s: Work)
    requires n <= |c.order|
    ensures var t := AfterDeleteResources(c, network, n, s);
            && t.status == s.status && t.world == s.world.(resources := t.world.resources)
            && (s.verdict.Stop? ==> t.verdict.Stop?) && OnlyDeletes(s.world, t.world)
  {
    if n > 0 {
      DeletesKeep(c, network, n - 1, s);
    }
  }

  lemma BegunKeeps(c: Pass, p: Peer, w: World)
    ensures var t := Begun(c, p, w);
            && t.status.network == p.status.network
            && t.world == w.(deployment := t.world.deployment, keys := t.world.keys)
  {
  }

  lemma NetworkStage(c: Pass, s: Work)
    ensures var t := AfterDeleteNetwork(c, s);
            && OnlyDeletes(s.world, t.world)
            && t.world == s.world.(resources := t.world.resources, networks := t.world.networks)
            && (t.world.networks == s.world.networks ||
                (c.order == [] && s.status.network.Some? &&
                    t.world.networks == s.world.networks.Drop(s.status.network.value)))
            && (t.verdict.Go? && t.status.network == None && s.status.network.Some? ==>
                c.order == [] && t.world.networks == s.world.networks.Drop(s.status.network.value))
            && (s.verdict.Stop? ==> t.verdict.Stop?)
  {
    if s.verdict.Go? && s.status.network.Some? {
      DeletesKeep(c, s.status.network.value, |c.order|, s);
    }
  }

  lemma LastStages(c: Pass, s: Work)
    ensures var u := AfterUnexempt(c, AfterReleaseGroup(c, s));
            && u.world == s.world.(group := u.world.group, account := u.world.account) && u.status == s.status
            && (s.verdict.Stop? ==> u.verdict.Stop?)
  {
  }

  /** The pieces of a teardown that concern the network and the OZResources. */
  lemma TeardownPieces(c: Pass, p: Peer, w: World)
    ensures var u := AfterTeardown(c, p, w);
            && u.world.peer == w.peer && u.world.netResources == w.netResources && OnlyDeletes(w, u.world)
            && (u.world.networks == w.networks ||
                (c.order == [] && p.status.network.Some? &&
                    u.world.networks == w.networks.Drop(p.status.network.value)))
            && (u.verdict.Go? && u.status.network == None ==>
                p.status.network == None || (c.order == [] &&
                    u.world.networks == w.networks.Drop(p.status.network.value)))
  {
    var t := Begun(c, p, w);
    BegunKeeps(c, p, w);
    NetworkStage(c, t);
    LastStages(c, AfterDeleteNetwork(c, t));
  }

  lemma {:induction false} NoResources(w: World, c: Pass)
    requires Faithful(c, w) && c.order == []
    ensures w.resources == map[]
  {
    assert forall k :: k !in w.resources;
  }

  /** A pass removes a network only while tearing its peer down, only the recorded one, and only if no
      OZResource of any network exists in the cluster. */
  lemma NetworkGoesLast(c: Pass, w: World, n: nat)
    requires Faithful(c, w) && n in w.networks.rows && n !in AfterPass(c, w).networks.rows
    ensures w.peer.Some? && w.peer.value.deleting && w.peer.value.status.network == Some(n)
    ensures w.resources == map[]
  {
    var p := w.peer.value;
    if !p.deleting {
      StagesKeepNetworks(c, p, w);
    } else {
      TeardownPieces(c, p, w);
      NoResources(w, c);
    }
  }

  /** Nothing of the network side is lost between s and t. */
  ghost predicate KeepsNetworks(s: World, t: World) {
    && s.networks.rows.Keys <= t.networks.rows.Keys
    && t.resources == s.resources && t.netResources == s.netResources && t.peer == s.peer
  }

  lemma KeyKeepsNetworks(c: Pass, group: string, s: Work)
    ensures KeepsNetworks(s.world, AfterKey(c, group, s).world)
  {
  }

  lemma RouterKeepsNetworks(c: Pass, group: string, s: Work)
    ensures KeepsNetworks(s.world, AfterRouter(c, group, s).world)
  {
  }

  lemma RestKeepsNetworks(c: Pass, group: string, exempt: bool, s: Work)
    ensures KeepsNetworks(s.world, AfterDeployment(c, AfterExempt(c, group, exempt, s)).world)
  {
  }

  lemma ReadyKeepsNetworks(c: Pass, p: Peer, w: World)
    ensures KeepsNetworks(w, Ready(c, p, w).world)
  {
  }

  lemma StagesKeepNetworks(c: Pass, p: Peer, w: World)
    ensures KeepsNetworks(w, AfterStages(c, p, w).world)
  {
    var s := Ready(c, p, w);
    ReadyKeepsNetworks(c, p, w);
    ReadyFrame(c, p, w);
    if s.verdict.Go? {
      var group := s.world.group.value.id.value;
      var t := AfterKey(c, group, s);
      KeyKeepsNetworks(c, group, s);
      RouterKeepsNetworks(c, group, t);
      RestKeepsNetworks(c, group, if p.exempt.Some? then p.exempt.value else true, AfterRouter(c, group, t));
    }
  }

  /** The first stages of a teardown that goes on. */
  lemma BeginEnd(c: Pass, p: Peer, w: World)
    ensures var t := Begun(c, p, w);
            && (t.verdict.Go? ==> !t.world.deployment && (p.status.key.Some? ==>
                  p.status.key.value !in t.world.keys.rows))
            && t.world.group == w.group && t.world.account == w.account
  {
  }

  lemma ReleaseEnd(c: Pass, s: Work)
    ensures var t := AfterReleaseGroup(c, s);
            t.verdict.Go? ==>
              && s.verdict.Go?
              && (t.world.group.Some? && t.world.group.value.specName != "" ==>
                    ROUTING_PEER_CLEANUP !in t.world.group.value.finalizers)
  {
    if s.world.group.Some? {
      DropMembers(s.world.group.value.finalizers, {ROUTING_PEER_CLEANUP}, ROUTING_PEER_CLEANUP);
    }
  }

  lemma UnexemptEnd(c: Pass, s: Work)
    ensures var t := AfterUnexempt(c, s);
            t.verdict.Go? ==>
              && s.verdict.Go? && t.world.group == s.world.group
              && (t.world.group.Some? && t.world.group.value.id.Some? ==>
                    t.world.group.value.id.value !in Listed(t.world.account))
  {
    if s.world.group.Some? && s.world.group.value.id.Some? {
      var id := s.world.group.value.id.value;
      DropMembers(Listed(s.world.account), {id}, id);
    }
  }

  lemma TeardownEnd(c: Pass, p: Peer, w: World)
    requires AfterTeardown(c, p, w).verdict.Go?
    ensures var u := AfterTeardown(c, p, w).world;
            && !u.deployment && (p.status.key.Some? ==> p.status.key.value !in u.keys.rows)
            && (u.group.Some? && u.group.value.specName != "" ==> ROUTING_PEER_CLEANUP !in u.group.value.finalizers)
            && (u.group.Some? && u.group.value.id.Some? ==> u.group.value.id.value !in Listed(u.account))
  {
    var t := Begun(c, p, w);
    BeginEnd(c, p, w);
    NetworkStage(c, t);
    LastStages(c, AfterDeleteNetwork(c, t));
    ReleaseEnd(c, AfterDeleteNetwork(c, t));
    UnexemptEnd(c, AfterReleaseGroup(c, AfterDeleteNetwork(c, t)));
  }

  lemma PeerGone(c: Pass, w: World)
    requires w.peer.Some? && AfterPass(c, w).peer == None
    ensures var p := w.peer.value;
            var u := AfterTeardown(c, p, w);
            && p.deleting && u.verdict.Go? && u.status.network == None && AfterPass(c, w) == u.world.(peer := None)
  {
    TeardownPieces(c, w.peer.value, w);
    StagesKeepNetworks(c, w.peer.value, w);
  }

  /** The finalizers of a routing peer go last: its key and deployment are gone, its network was deleted in
      a cluster without OZResources (in this pass, or the status had already forgotten it), its group, if it
      still exists, lost the routing-peer finalizer and, if it still has its ID, its entry in the exempt list. */
  lemma FinalizersGoLast(c: Pass, w: World)
    requires Faithful(c, w) && w.peer.Some? && AfterPass(c, w).peer == None
    ensures var p, v := w.peer.value, AfterPass(c, w);
            && p.deleting && !v.deployment
            && (p.status.key.Some? ==> p.status.key.value !in v.keys.rows)
            && (p.status.network.Some? ==> w.resources == map[] && p.status.network.value !in v.networks.rows)
            && (v.group.Some? && v.group.value.specName != "" ==> ROUTING_PEER_CLEANUP !in v.group.value.finalizers)
            && (v.group.Some? && v.group.value.id.Some? ==> v.group.value.id.value !in Listed(v.account))
    ensures NoLeak(w) ==> AfterPass(c, w).keys.rows == map[]
  {
    var p := w.peer.value;
    PeerGone(c, w);
    TeardownPieces(c, p, w);
    TeardownEnd(c, p, w);
    if p.status.network.Some? {
      NoResources(w, c);
    }
    if NoLeak(w) {
      TeardownNames(c, p, w, {});
      assert forall id :: id !in AfterPass(c, w).keys.rows;
    }
  }

  lemma ReleaseKeepsId(c: Pass, s: Work)
    ensures var t := AfterReleaseGroup(c, s).world;
            && t.account == s.world.account && (t.group.Some? <==> s.world.group.Some?)
            && (t.group.Some? ==> t.group.value.id == s.world.group.value.id)
  {
  }

  /** The pass with which a peer goes takes out of the exempt list the ID its group object has at that moment,
      and nothing else: with the object or its ID gone, the entry stays. */
  lemma ExemptEntryGoesExactlyWhen(c: Pass, w: World, g: string)
    requires w.peer.Some? && AfterPass(c, w).peer == None
    ensures g in Listed(AfterPass(c, w).account) <==>
            g in Listed(w.account) && !(w.group.Some? && w.group.value.id == Some(g))
  {
    var p := w.peer.value;
    PeerGone(c, w);
    var t := Begun(c, p, w);
    BegunKeeps(c, p, w);
    NetworkStage(c, t);
    var s := AfterDeleteNetwork(c, t);
    ReleaseKeepsId(c, s);
    assert s.world.account == w.account && s.world.group == w.group;
    if w.group.Some? && w.group.value.id.Some? {
      DropMembers(Listed(w.account), {w.group.value.id.value}, g);
    }
  }

  lemma ReleasedUnread(c: Pass, w: World, g: string)
    requires w.peer.Some? && w.peer.value.deleting && w.peer.value.finalizers != []
    requires w.peer.value.status.network == None && w.group == Some(Group("routers", [ROUTING_PEER_CLEANUP], Some(g)))
    requires g in Listed(w.account) && c.down == {ListAccounts}
    ensures var u := AfterPass(c, w);
            && u.peer == Some(w.peer.value.(status := u.peer.value.status)) && u.peer.value.status.network == None
            && u.group.Some? && u.group.value.finalizers == [] && u.account == w.account
  {
    assert Drop([ROUTING_PEER_CLEANUP], {ROUTING_PEER_CLEANUP}) == [];
  }

  lemma GoesWithoutGroup(c: Pass, w: World)
    requires w.peer.Some? && w.peer.value.deleting && w.peer.value.finalizers != []
    requires w.peer.value.status.network == None && w.group == None && c.down == {}
    ensures AfterPass(c, w).peer == None && AfterPass(c, w).account == w.account
  {
  }

  /** How the entry comes to stay: a pass takes the finalizer from the group and then fails to read the account;
      the group goes; the next pass has no ID left to look for. */
  lemma ExemptEntrySurvives(c1: Pass, c2: Pass, w: World, g: string)
    requires w.peer.Some? && w.peer.value.deleting && w.peer.value.finalizers != []
    requires w.peer.value.status.network == None && w.group == Some(Group("routers", [ROUTING_PEER_CLEANUP], Some(g)))
    requires g in Listed(w.account) && c1.down == {ListAccounts} && c2.down == {}
    ensures var u := AfterPass(c1, w);
            var v := AfterPass(c2, u.(group := None));
            && u.peer.Some? && u.group.Some? && u.group.value.finalizers == []
            && v.peer == None && g in Listed(v.account)
  {
    ReleasedUnread(c1, w, g);
    GoesWithoutGroup(c2, AfterPass(c1, w).(group := None));
  }

  /** A clean deletion pass completes exactly when the status names no network or no OZResource is left;
      so a resource created after the network was forgotten does not hold the peer back. */
  lemma TeardownCompletesExactlyWhen(c: Pass, w: World)
    requires c.down == {} && Faithful(c, w) && w.peer.Some?
    requires w.peer.value.deleting && w.peer.value.finalizers != []
    ensures AfterPass(c, w).peer == None <==> w.peer.value.status.network == None || w.resources == map[]
  {
    var p := w.peer.value;
    var s := AfterDeleteKey(c, AfterDeleteDeployment(c, Work(w, p.status, Go)));
    if p.status.network.Some? {
      CleanDeletes(c, p.status.network.value, |c.order|, s);
      if c.order != [] {
        assert c.order[0] in w.resources;
      }
    }
    var t := AfterDeleteNetwork(c, s);
    assert t.verdict.Go? && AfterTeardown(c, p, w).verdict.Go?;
    assert AfterTeardown(c, p, w).status == t.status;
  }

  lemma {:induction false} CleanDeletes(c: Pass, network: nat, n: nat, s: Work)
    requires n <= |c.order| && c.down == {} && s.verdict.Go?
    ensures AfterDeleteResources(c, network, n, s).verdict.Go? &&
        AfterDeleteResources(c, network, n, s).status == s.status
  {
    if n > 0 {
      CleanDeletes(c, network, n - 1, s);
    }
  }

  // ----- whose OZResources a teardown deletes -----

  lemma {:induction false} DeletesSpare(c: Pass, network: nat, n: nat, s: Work, k: Key)
    requires n <= |c.order| && k in s.world.resources && s.world.resources[k].network != network
    ensures var t := AfterDeleteResources(c, network, n, s).world.resources;
            k in t && t[k] == s.world.resources[k]
  {
    if n > 0 {
      DeletesSpare(c, network, n - 1, s, k);
    }
  }

  /** A resource of the network after its deletion was requested. */
  predicate Requested(r: Resource, k: Key, resources: map<Key, Resource>) {
    if r.guarded then k in resources && resources[k] == r.(deleting := true) else k !in resources
  }

  lemma {:induction false} DeletesReach(c: Pass, network: nat, n: nat, s: Work, k: Key)
    requires n <= |c.order| && k in s.world.resources && s.world.resources[k].network == network
    requires s.verdict.Go? && c.down == {}
    ensures var t := AfterDeleteResources(c, network, n, s);
            && t.verdict.Go?
            && (k !in c.order[..n] ==> k in t.world.resources && t.world.resources[k] == s.world.resources[k])
            && (k in c.order[..n] ==> Requested(s.world.resources[k], k, t.world.resources))
  {
    if n > 0 {
      DeletesReach(c, network, n - 1, s, k);
      assert c.order[..n] == c.order[..n - 1] + [c.order[n - 1]];
    }
  }

  lemma NetworkStageResources(c: Pass, s: Work, k: Key)
    requires k in s.world.resources
    ensures var t := AfterDeleteNetwork(c, s);
            var r := s.world.resources[k];
            && (s.status.network != Some(r.network) ==> k in t.world.resources && t.world.resources[k] == r)
            && (s.status.network == Some(r.network) && s.verdict.Go? && c.down == {} && k in c.order ==>
                  Requested(r, k, t.world.resources))
  {
    var r := s.world.resources[k];
    if s.status.network.Some? {
      if s.status.network.value != r.network {
        DeletesSpare(c, s.status.network.value, |c.order|, s, k);
      } else if s.verdict.Go? && c.down == {} {
        DeletesReach(c, s.status.network.value, |c.order|, s, k);
        assert c.order[..|c.order|] == c.order;
      }
    }
  }

  /** Whatever fails, a pass leaves every OZResource alone but those of the network that a peer being deleted
      records. */
  lemma PassSparesOthers(c: Pass, w: World, k: Key)
    requires k in w.resources
    requires !(w.peer.Some? && w.peer.value.deleting && w.peer.value.status.network == Some(w.resources[k].network))
    ensures k in AfterPass(c, w).resources && AfterPass(c, w).resources[k] == w.resources[k]
  {
    if GetPeer !in c.down && w.peer.Some? {
      var p := w.peer.value;
      if !p.deleting {
        StagesKeepNetworks(c, p, w);
      } else {
        var t := Begun(c, p, w);
        BegunKeeps(c, p, w);
        NetworkStageResources(c, t, k);
        LastStages(c, AfterDeleteNetwork(c, t));
      }
    }
  }

  /** A clean deletion pass requests the deletion of every OZResource of the recorded network: what no finalizer
      holds is gone, the rest is marked and otherwise unchanged. */
  lemma TeardownReachesOwn(c: Pass, w: World, k: Key)
    requires c.down == {} && Faithful(c, w) && k in w.resources
    requires w.peer.Some? && w.peer.value.deleting && w.peer.value.finalizers != []
    requires w.peer.value.status.network == Some(w.resources[k].network)
    ensures Requested(w.resources[k], k, AfterPass(c, w).resources)
  {
    var p := w.peer.value;
    var t := Begun(c, p, w);
    BegunKeeps(c, p, w);
    assert t.verdict.Go?;
    NetworkStageResources(c, t, k);
    LastStages(c, AfterDeleteNetwork(c, t));
  }

  // ----- what an OZResource pass makes of its network resource -----

  /** Whatever fails: an OZResource being deleted goes exactly when all its calls succeed, and its network resource
      exactly when those up to its own deletion do; nothing else changes. */
  lemma ResourceGoesExactlyWhen(c: ResourcePass, w: World)
    requires GetResource !in c.down && c.key in w.resources && w.resources[c.key].deleting
    ensures var r, v := w.resources[c.key], AfterResource(c, w);
            var reached := WithdrawPolicies !in c.down && (r.remote.Some? ==> DeleteRemote !in c.down);
            && (c.key !in v.resources <==> reached && c.down !! {ReleaseGroups, RemoveFinalizers})
            && v == w.(resources := v.resources, netResources := v.netResources)
            && (v.resources == w.resources || v.resources == w.resources - {c.key})
            && v.netResources.next == w.netResources.next
            && v.netResources.rows == if reached && r.remote.Some? then w.netResources.rows - {r.remote.value}
                                      else w.netResources.rows
  {
  }

  /** Whatever fails: a live OZResource is guarded before anything is made for it; a network resource is made exactly
      when none is recorded and the pass gets that far, and recorded exactly when its status write succeeds too. */
  lemma ResourceMadeExactlyWhen(c: ResourcePass, w: World)
    requires GetResource !in c.down && c.key in w.resources && !w.resources[c.key].deleting
    ensures var r, v := w.resources[c.key], AfterResource(c, w);
            var reached := (r.guarded || AddFinalizer !in c.down) && c.ready;
            && c.key in v.resources
            && (v.resources[c.key].guarded <==> r.guarded || AddFinalizer !in c.down)
            && (v.netResources.rows != w.netResources.rows <==>
                  reached && r.remote == None && CreateRemote !in c.down)
            && (r.remote == None ==>
                  (v.resources[c.key].remote.Some? <==> reached && c.down !! {CreateRemote, WriteResource}))
            && (r.remote.Some? ==>
                  (v.resources[c.key].remote == None <==>
                     reached && !w.netResources.Live(r.remote) && c.down !! {GetRemote, WriteResource}))
  {
    var r := w.resources[c.key];
    if (r.guarded || AddFinalizer !in c.down) && c.ready && r.remote == None && CreateRemote !in c.down {
      assert w.netResources.next in AfterResource(c, w).netResources.rows;
    }
  }

  /** A clean pass that its groups let go on creates a missing network resource in the network of the spec and
      records it, forgets one that has vanished, and leaves a live one alone. */
  lemma CleanResourcePass(c: ResourcePass, w: World)
    requires c.down == {} && c.ready && c.key in w.resources && !w.resources[c.key].deleting
    ensures var r, v := w.resources[c.key], AfterResource(c, w);
            && v == w.(resources := v.resources, netResources := v.netResources)
            && v.resources == w.resources[c.key := r.(guarded := true, remote := v.resources[c.key].remote)]
            && (r.remote == None ==>
                  && v.netResources.rows == w.netResources.rows[w.netResources.next := r.network]
                  && v.resources[c.key].remote == Some(w.netResources.next))
            && (r.remote.Some? ==> v.netResources == w.netResources)
            && (r.remote.Some? ==>
                  v.resources[c.key].remote == if r.remote.value in w.netResources.rows then r.remote else None)
  {
  }

  /** Two of them end with a live network resource on record, made in the network of the spec if they made it. */
  lemma TwoResourcePasses(c: ResourcePass, d: ResourcePass, w: World)
    requires c.down == d.down == {} && c.ready && d.ready && c.key == d.key
    requires c.key in w.resources && !w.resources[c.key].deleting
    ensures var r, v := w.resources[c.key], AfterResource(d, AfterResource(c, w));
            && c.key in v.resources && v.netResources.Live(v.resources[c.key].remote)
            && (v.resources[c.key].remote == r.remote
                || v.netResources.rows[v.resources[c.key].remote.value] == r.network)
  {
    CleanResourcePass(c, w);
    CleanResourcePass(d, AfterResource(c, w));
  }

  // ----- runs -----

  /** A status that records a network resource belongs to an object a finalizer holds. */
  ghost predicate Held(w: World) {
    forall k :: k in w.resources && w.resources[k].remote.Some? ==>
      w.resources[k].guarded && w.resources[k].remote.value < w.netResources.next
  }

  /** Every live network resource is recorded by an OZResource that still exists. */
  ghost predicate Recorded(w: World) {
    Held(w) && forall id :: id in w.netResources.rows ==>
        exists k :: k in w.resources && w.resources[k].remote == Some(id)
  }

  datatype Event = PeerPass(c: Pass) | ObjectPass(r: ResourcePass) | Outside

  /** Users create and delete OZResources and change everything that is not the operator's own record:
      a guarded object is only marked, and the server may lose network resources. */
  ghost predicate Users(w: World, v: World) {
    && v.netResources.next == w.netResources.next && v.netResources.rows.Keys <= w.netResources.rows.Keys
    && (forall k :: k in w.resources && w.resources[k].guarded ==> k in v.resources)
    && (forall k :: k in w.resources && k in v.resources ==> v.resources[k].remote == w.resources[k].remote)
    && (forall k :: k in w.resources && k in v.resources && w.resources[k].guarded ==> v.resources[k].guarded)
    && (forall k :: k in v.resources && k !in w.resources ==> v.resources[k].remote == None)
  }

  ghost predicate Step(e: Event, w: World, v: World) {
    match e
    case PeerPass(c) => Faithful(c, w) && v == AfterPass(c, w)
    case ObjectPass(r) => v == AfterResource(r, w)
    case Outside => Users(w, v)
  }

  /** v's OZResources are at most marked or unguarded and gone, and no network resource is touched. */
  ghost predicate LeavesRecords(w: World, v: World) {
    v.netResources == w.netResources && OnlyDeletes(w, v)
  }

  lemma PassLeavesRecords(c: Pass, w: World)
    ensures LeavesRecords(w, AfterPass(c, w))
  {
    if GetPeer !in c.down && w.peer.Some? {
      var p := w.peer.value;
      if !p.deleting {
        StagesKeepNetworks(c, p, w);
      } else {
        TeardownPieces(c, p, w);
      }
    }
  }

  lemma RecordsStay(w: World, v: World)
    requires Held(w) && LeavesRecords(w, v)
    ensures Held(v) && (Recorded(w) ==> Recorded(v))
  {
    forall k | k in w.resources && w.resources[k].remote.Some?
      ensures k in v.resources && v.resources[k].remote == w.resources[k].remote
    {
    }
    if Recorded(w) {
      forall id | id in v.netResources.rows ensures exists k :: k in v.resources && v.resources[k].remote == Some(id) {
        var k :| k in w.resources && w.resources[k].remote == Some(id);
        assert k in v.resources && v.resources[k].remote == Some(id);
      }
    }
  }

  lemma PeerKeeps(c: Pass, w: World)
    requires Held(w)
    ensures var v := AfterPass(c, w); Held(v) && (Recorded(w) ==> Recorded(v))
  {
    PassLeavesRecords(c, w);
    RecordsStay(w, AfterPass(c, w));
  }

  lemma ObjectKeeps(r: ResourcePass, w: World)
    requires Held(w)
    ensures var v := AfterResource(r, w); Held(v) && (Recorded(w) && WriteResource !in r.down ==> Recorded(v))
  {
    var v := AfterResource(r, w);
    if Recorded(w) && WriteResource !in r.down {
      forall id | id in v.netResources.rows ensures exists k :: k in v.resources && v.resources[k].remote == Some(id) {
        if id in w.netResources.rows {
          var k :| k in w.resources && w.resources[k].remote == Some(id);
          assert k in v.resources && v.resources[k].remote == Some(id);
        } else {
          assert v.resources[r.key].remote == Some(id);
        }
      }
    }
  }

  /** Over every run of routing-peer passes, OZResource passes and user actions, with any calls failing:
      whenever a pass deletes a network, no OZResource exists, let alone one whose status records a live
      network resource; and as long as no OZResource status write failed, no network resource made by the
      operator is live at all. */
  lemma {:induction false} NetworksOutliveResources(ws: seq<World>, events: seq<Event>, n: nat)
    requires |ws| == |events| + 1 && events != [] && Recorded(ws[0])
    requires forall i :: 0 <= i < |events| ==> Step(events[i], ws[i], ws[i + 1])
    requires events[|events| - 1].PeerPass? && n in ws[|events| - 1].networks.rows && n !in ws[|events|].networks.rows
    ensures ws[|events| - 1].resources == map[]
    ensures (forall i :: 0 <= i < |events| && events[i].ObjectPass? ==> WriteResource !in events[i].r.down) ==>
            ws[|events| - 1].netResources.rows == map[]
  {
    var last := |events| - 1;
    NetworkGoesLast(events[last].c, ws[last], n);
    if forall i :: 0 <= i < |events| && events[i].ObjectPass? ==> WriteResource !in events[i].r.down {
      StaysRecorded(ws, events, last);
      assert forall id :: id !in ws[last].netResources.rows;
    }
  }

  lemma {:induction false} StaysRecorded(ws: seq<World>, events: seq<Event>, n: nat)
    requires |ws| == |events| + 1 && n <= |events| && Recorded(ws[0])
    requires forall i :: 0 <= i < |events| ==> Step(events[i], ws[i], ws[i + 1])
    requires forall i :: 0 <= i < |events| && events[i].ObjectPass? ==> WriteResource !in events[i].r.down
    ensures Recorded(ws[n])
  {
    if n > 0 {
      StaysRecorded(ws, events, n - 1);
      match events[n - 1] {
        case PeerPass(c) => PeerKeeps(c, ws[n - 1]);
        case ObjectPass(r) => ObjectKeeps(r, ws[n - 1]);
        case Outside =>
      }
    }
  }
}
