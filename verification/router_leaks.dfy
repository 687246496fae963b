// What failing passes of the NetworkRouter and Group controllers may leave on the server, and what their
// deletion removes (internal/controller/networkrouter_controller.go, internal/controller/group_controller.go).
module RouterLeaks {
  import opened RouterTrio
  import opened Tables

  /** Every network and routing peer made for the router is the one its persisted status names; a routing
      peer lives in the recorded network, which exists. */
  ghost predicate RouterNamed(w: World) {
    match w.router
    case None => w.networks.rows == map[] && w.peers.rows == map[]
    case Some(r) =>
      && (r.network.Some? ==> r.network.value < w.networks.next) && (r.peer.Some? ==> r.peer.value < w.peers.next)
      && w.networks.rows.Keys <= Ids(r.network)
      && forall p :: p in w.peers.rows ==>
           r.peer == Some(p) && r.network == Some(w.peers.rows[p].network) && w.networks.Live(r.network)
  }

  ghost predicate Syncs(down: set<RouterCall>, w: World) {
    && w.router.Some? && !w.router.value.deleting && down !! {GetRouter, ListZones} && w.zone
  }

  ghost predicate CreatesNetwork(down: set<RouterCall>, w: World) {
    && Syncs(down, w) && !w.networks.Live(w.router.value.network) && CreateNetwork !in down
    && (w.router.value.network.Some? ==> UpdateNetwork !in down)
  }

  /** The pass gets as far as creating a routing peer. */
  ghost predicate CreatesPeer(down: set<RouterCall>, w: World) {
    && Syncs(down, w) && AfterNetwork(down, w).1
    && AfterApplies(down, AfterNetwork(down, w).0).1
    && !w.peers.Live(w.router.value.peer) && CreatePeer !in down
    && (w.router.value.peer.Some? ==> UpdatePeer !in down)
  }

  lemma NetworkStage(down: set<RouterCall>, w: World)
    requires RouterNamed(w) && Syncs(down, w)
    ensures var v := AfterNetwork(down, w);
            && v.0 == w.(router := v.0.router, networks := v.0.networks) && v.0.router.Some?
            && v.0.router.value == w.router.value.(network := v.0.router.value.network)
            && (RouterNamed(v.0) <==> !(CreatesNetwork(down, w) && PatchNetwork in down))
            && (v.1 ==> v.0.router.value.network.Some? && PatchNetwork !in down)
            && (v.1 ==> v.0.networks.Live(v.0.router.value.network))
  {
    if CreatesNetwork(down, w) {
      assert w.networks.next in AfterNetwork(down, w).0.networks.rows.Keys;
      assert w.peers.rows == map[] by {
        assert forall p :: p !in w.peers.rows;
      }
    }
  }

  lemma ApplyStage(down: set<RouterCall>, w: World)
    requires w.router.Some? && w.router.value.network.Some?
    ensures var v := AfterApplies(down, w);
            && v.0 == w.(group := v.0.group, key := v.0.key)
            && (v.1 ==> v.0.group.Some? && v.0.group.value.status.Some?)
  {
  }

  lemma PeerStage(down: set<RouterCall>, w: World)
    requires RouterNamed(w) && w.router.Some? && w.networks.Live(w.router.value.network)
    requires w.group.Some? && w.group.value.status.Some?
    ensures RouterNamed(AfterPeer(down, w)) <==>
            !(&& !w.peers.Live(w.router.value.peer) && CreatePeer !in down
              && (w.router.value.peer.Some? ==> UpdatePeer !in down) && PatchPeer in down)
  {
    if w.peers.next in AfterPeer(down, w).peers.rows && PatchPeer in down {
      assert w.router.value.peer != Some(w.peers.next);
    }
  }

  /** A router pass leaks exactly when it creates a network or a routing peer and the patch that should
      record it fails. */
  lemma RouterLeaksExactlyWhen(down: set<RouterCall>, w: World)
    requires RouterNamed(w)
    ensures RouterNamed(AfterRouterPass(down, w)) <==>
            !(|| (CreatesNetwork(down, w) && PatchNetwork in down)
              || (CreatesPeer(down, w) && PatchPeer in down))
  {
    if Syncs(down, w) {
      NetworkStage(down, w);
      var v := AfterNetwork(down, w);
      if v.1 {
        ApplyStage(down, v.0);
        var u := AfterApplies(down, v.0);
        if u.1 {
          PeerStage(down, u.0);
        }
      }
    } else if GetRouter !in down && w.router.Some? && w.router.value.deleting {
      assert AfterRouterPass(down, w) == AfterRouterDelete(down, w);
      RouterDeletion(down, w);
    }
  }

  /** Deletion removes the routing peer before its network, and the object goes exactly when every call
      succeeds; by then both are gone. */
  lemma RouterDeletion(down: set<RouterCall>, w: World)
    requires RouterNamed(w) && w.router.Some? && w.router.value.deleting
    ensures var r, v := w.router.value, AfterRouterDelete(down, w);
            && RouterNamed(v)
            && (v.router == None <==>
                (&& RemoveFinalizer !in down && (r.peer.Some? ==> DeletePeer !in down)
                 && (r.network.Some? ==> DeleteNetwork !in down)))
            && (v.networks.rows.Keys != w.networks.rows.Keys ==> v.peers.rows == map[])
            && (v.router == None ==> v.networks.rows == map[] && v.peers.rows == map[])
  {
    var v := AfterRouterDelete(down, w);
    if v.networks.rows.Keys != w.networks.rows.Keys || v.router == None {
      assert forall p :: p !in v.peers.rows;
      if v.router == None {
        assert forall n :: n !in v.networks.rows;
      }
    }
  }

  /** Between passes: rows may be deleted by others, a network with its routing peers; the router may be
      marked for deletion, and goes by itself only before its first patch set the finalizer. */
  ghost predicate Environment(w: World, v: World) {
    && v.networks.next >= w.networks.next && v.peers.next >= w.peers.next
    && v.networks.rows.Keys <= w.networks.rows.Keys
    && (forall p :: p in v.peers.rows ==>
          p in w.peers.rows && v.peers.rows[p].network == w.peers.rows[p].network
          && (w.networks.Live(Some(w.peers.rows[p].network)) ==> v.networks.Live(Some(w.peers.rows[p].network))))
    && (w.router == None ==> v.router == None)
    && (w.router.Some? && v.router == None ==> w.router.value.network == None)
    && (w.router.Some? && v.router.Some? ==>
          v.router.value.network == w.router.value.network && v.router.value.peer == w.router.value.peer)
  }

  /** A pass whose patches succeed, or the environment. */
  ghost predicate Follows(pass: Option<set<RouterCall>>, w: World, v: World) {
    match pass
    case None => Environment(w, v)
    case Some(down) => down !! {PatchNetwork, PatchPeer} && v == AfterRouterPass(down, w)
  }

  /** Over every run in which only the two status patches are spared, with the passes of the other two
      controllers and the environment in between: every network and routing peer stays named, and none is
      left once the router is gone. */
  lemma {:induction false} RouterRunsLeakNothing(ws: seq<World>, passes: seq<Option<set<RouterCall>>>)
    requires |ws| == |passes| + 1 && RouterNamed(ws[0])
    requires forall i :: 0 <= i < |passes| ==> Follows(passes[i], ws[i], ws[i + 1])
    ensures RouterNamed(ws[|passes|])
    ensures ws[|passes|].router == None ==> ws[|passes|].networks.rows == map[] && ws[|passes|].peers.rows == map[]
  {
    if passes != [] {
      var n := |passes| - 1;
      RouterRunsLeakNothing(ws[..n + 1], passes[..n]);
      match passes[n] {
        case Some(down) => RouterLeaksExactlyWhen(down, ws[n]);
        case None => EnvironmentKeeps(ws[n], ws[n + 1]);
      }
    }
  }

  lemma EnvironmentKeeps(w: World, v: World)
    requires RouterNamed(w) && Environment(w, v)
    ensures RouterNamed(v)
  {
    if v.router == None {
      assert forall p :: p !in v.peers.rows;
      assert forall n :: n !in v.networks.rows;
    }
  }

  // ----- Group -----

  ghost predicate GroupNamed(w: World) {
    && w.groups.rows.Keys <= Ids(GroupStatus(w))
    && (GroupStatus(w).Some? ==> GroupStatus(w).value < w.groups.next)
  }

  /** A group pass leaks exactly when it creates a group and the patch that should record it fails; deletion
      lets the object go exactly when its calls succeed, and the group is gone by then. */
  lemma GroupLeaksExactlyWhen(down: set<GroupCall>, w: World)
    requires GroupNamed(w)
    ensures GroupNamed(AfterGroupPass(down, w)) <==>
            !(&& w.group.Some? && !w.group.value.deleting && down !! {GetGroupObject, PatchFinalizer, CreateGroup}
              && (GroupStatus(w).Some? ==> UpdateGroup !in down) && !w.groups.Live(GroupStatus(w))
              && PatchStatus in down)
    ensures w.group.Some? && w.group.value.deleting && GetGroupObject !in down ==>
            (AfterGroupPass(down, w).group == None <==>
             PatchFinalizer !in down && (GroupStatus(w).Some? ==> DeleteGroup !in down))
    ensures w.group.Some? && AfterGroupPass(down, w).group == None ==> AfterGroupPass(down, w).groups.rows == map[]
  {
    var v := AfterGroupPass(down, w);
    if w.groups.next in v.groups.rows {
      assert w.groups.next in v.groups.rows.Keys;
    }
    if w.group.Some? && v.group == None {
      assert forall g :: g !in v.groups.rows;
    }
  }
}
