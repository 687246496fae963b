// How far an OZRoutingPeer pass gets, in terms of the calls that fail: the stages before the deployment of a live
// peer, and the stages of a deletion.
module PeerOutcomes {
  import opened ExemptList
  import opened Finalizers
  import opened RoutingPeer
  import opened Slices
  import opened Tables
  import Teardown

  // ----- a live peer -----

  /** The setup key stage goes on: a key that can be used is in place, or a new one is made and handed out. */
  ghost predicate KeyHolds(c: Pass, w: World, key: Option<nat>) {
    if key == None then
      && c.down !! {CreateKey, CreateSecret}
      && (w.secret.Some? ==> c.down !! {GetSecret, UpdateSecret})
    else
      && c.down !! {GetKey, GetSecret} && w.keys.Live(key) && !w.keys.rows[key.value].revoked
      && w.secret.Some? && w.secret.value.Some?
  }

  /** The router stage goes on for this network. */
  ghost predicate RouterHolds(c: Pass, w: World, network: nat, recorded: Option<nat>, group: string) {
    && ListRouters !in c.down
    && if network !in c.firstRouter || c.firstRouter[network] !in w.routers.rows then CreateRouter !in c.down
       else
         var r := w.routers.rows[c.firstRouter[network]];
         || recorded == None || UpdateRouter !in c.down
         || (r.enabled && r.masquerade && r.metric == 9999 && r.groups == [group])
  }

  /** The account stage goes on: the account can be read, and written if it does not honour the flag. */
  ghost predicate AccountHolds(c: Pass, a: Account, group: string, flag: bool) {
    && ListAccounts !in c.down
    && (UpdateAccount !in c.down || (a.Account? ==> (group in Listed(a) <==> flag)))
  }

  /** Every stage before the deployment goes on. */
  ghost predicate ReachesDeployment(c: Pass, w: World, p: Peer) {
    var found := if p.status.network.Some? then p.status.network else c.foundNetwork;
    var network := if found.Some? then found.value else w.networks.next;
    && GetPeer !in c.down
    && (p.status.network == None ==> ListNetworks !in c.down && (c.foundNetwork == None ==> CreateNetwork !in c.down))
    && GetGroup !in c.down && w.group.Some? && w.group.value.id.Some?
    && KeyHolds(c, w, p.status.key)
    && RouterHolds(c, w, network, p.status.router, w.group.value.id.value)
    && AccountHolds(c, w.account, w.group.value.id.value, p.exempt != Some(false))
  }

  lemma AccountStage(c: Pass, group: string, flag: bool, s: Work)
    ensures AfterExempt(c, group, flag, s).verdict.Go? <==>
            s.verdict.Go? && AccountHolds(c, s.world.account, group, flag)
    ensures AfterExempt(c, group, flag, s).status == s.status
    ensures AfterExempt(c, group, flag, s).world == s.world.(account := AfterExempt(c, group, flag, s).world.account)
  {
    if s.world.account.Account? {
      AppliedFacts(s.world.account, group, flag, {});
    }
  }

  lemma RouterStage(c: Pass, group: string, s: Work)
    requires s.status.network.Some?
    ensures var t := AfterRouter(c, group, s);
            && (t.verdict.Go? <==>
                  s.verdict.Go? && RouterHolds(c, s.world, s.status.network.value, s.status.router, group))
            && t.world.account == s.world.account && t.world.deployment == s.world.deployment
  {
  }

  lemma KeyStage(c: Pass, group: string, s: Work)
    ensures var t := AfterKey(c, group, s);
            && (t.verdict.Go? <==> s.verdict.Go? && KeyHolds(c, s.world, s.status.key))
            && t.world == s.world.(keys := t.world.keys, secret := t.world.secret)
            && t.status == s.status.(key := t.status.key)
  {
  }

  /** The first two stages. */
  lemma ReadyStage(c: Pass, p: Peer, w: World)
    ensures var s := AfterGroup(c, AfterNetwork(c, Work(w, p.status, Go)));
            var found := if p.status.network.Some? then p.status.network else c.foundNetwork;
            && (s.verdict.Go? <==>
                  && (p.status.network == None ==>
                        ListNetworks !in c.down && (c.foundNetwork == None ==> CreateNetwork !in c.down))
                  && GetGroup !in c.down && w.group.Some? && w.group.value.id.Some?)
            && (s.verdict.Go? ==>
                  && s.status == p.status.(network := if found.Some? then found else Some(w.networks.next))
                  && s.world == w.(networks := s.world.networks))
            && s.world.deployment == w.deployment
  {
  }

  /** The deployment is applied exactly when every stage before it goes on: no pass rolls out routers before the
      network, the group's ID, the setup key, the router and the exempt entry are all in place. */
  lemma DeploymentAppliedExactlyWhen(c: Pass, w: World)
    requires w.peer.Some? && !w.peer.value.deleting
    ensures AfterPass(c, w).deployment <==>
            w.deployment || (ReachesDeployment(c, w, w.peer.value) && ApplyDeployment !in c.down)
  {
    var p := w.peer.value;
    var s := AfterGroup(c, AfterNetwork(c, Work(w, p.status, Go)));
    ReadyStage(c, p, w);
    if s.verdict.Go? {
      var g := s.world.group.value.id.value;
      var k := AfterKey(c, g, s);
      KeyStage(c, g, s);
      var r := AfterRouter(c, g, k);
      RouterStage(c, g, k);
      AccountStage(c, g, p.exempt != Some(false), r);
    }
  }

  // ----- a peer being deleted -----

  /** The deployment is gone or can be deleted. */
  ghost predicate DeploymentGoes(c: Pass, w: World) {
    GetDeployment !in c.down && (w.deployment ==> DeleteDeployment !in c.down)
  }

  /** The setup key stage of the deletion is passed. */
  ghost predicate KeyGoes(c: Pass, w: World, p: Peer) {
    DeploymentGoes(c, w) && (p.status.key.Some? ==> DeleteKey !in c.down)
  }

  /** The deletion of some OZResource of the network fails. */
  ghost predicate Refused(c: Pass, w: World, network: nat) {
    exists k :: k in w.resources && w.resources[k].network == network && DeleteResource(k) in c.down
  }

  /** The network stage of the deletion is passed: no network is recorded, or its resources can all be asked to go and
      it can be deleted unless some OZResource is left. */
  ghost predicate NetworkPasses(c: Pass, w: World, p: Peer) {
    && KeyGoes(c, w, p) && GetGroup !in c.down
    && (p.status.network.Some? ==>
          && ListResources !in c.down && !Refused(c, w, p.status.network.value)
          && (w.resources == map[] ==> DeleteNetwork !in c.down))
  }

  ghost predicate HoldsGroup(w: World) {
    w.group.Some? && w.group.value.specName != "" && "openzro.io/routing-peer-cleanup" in w.group.value.finalizers
  }

  ghost predicate GroupGoes(c: Pass, w: World, p: Peer) {
    NetworkPasses(c, w, p) && (HoldsGroup(w) ==> UpdateGroup !in c.down)
  }

  ghost predicate EntryGoes(c: Pass, w: World, p: Peer) {
    && GroupGoes(c, w, p)
    && (w.group.Some? && w.group.value.id.Some? ==> AccountHolds(c, w.account, w.group.value.id.value, false))
  }

  lemma {:induction false} ResourcesRequested(c: Pass, network: nat, n: nat, s: Work)
    requires n <= |c.order| && s.verdict.Go?
    ensures var t := AfterDeleteResources(c, network, n, s);
            && (t.verdict.Go? <==>
                  forall k :: k in c.order[..n] && k in s.world.resources && s.world.resources[k].network == network ==>
                    DeleteResource(k) !in c.down)
            && t.status == s.status && t.world == s.world.(resources := t.world.resources)
            && (forall k :: k in t.world.resources ==>
                  k in s.world.resources && t.world.resources[k].network == s.world.resources[k].network)
            && (forall k :: k in s.world.resources && k !in c.order[..n] ==>
                  k in t.world.resources && t.world.resources[k] == s.world.resources[k])
  {
    if n > 0 {
      ResourcesRequested(c, network, n - 1, s);
      assert c.order[..n] == c.order[..n - 1] + [c.order[n - 1]];
    }
  }

  /** What the first half of a deletion leaves in the working copy. */
  lemma FirstHalf(c: Pass, p: Peer, w: World, s: Work)
    requires s == AfterDeleteKey(c, AfterDeleteDeployment(c, Work(w, p.status, Go)))
    ensures s.verdict.Go? <==> KeyGoes(c, w, p)
    ensures s.world.resources == w.resources && s.world.group == w.group && s.world.account == w.account
    ensures s.status == p.status.(key := if KeyGoes(c, w, p) then None else p.status.key)
  {
  }

  lemma NetworkHalf(c: Pass, p: Peer, w: World, s: Work)
    requires Faithful(c, w) && s.world.resources == w.resources && s.status.network == p.status.network
    requires s.verdict.Go? <==> KeyGoes(c, w, p) && GetGroup !in c.down
    ensures var t := AfterDeleteNetwork(c, s);
            && (t.verdict.Go? <==> NetworkPasses(c, w, p))
            && t.world.group == s.world.group && t.world.account == s.world.account
            && t.status == if p.status.network.Some? && w.resources == map[] && NetworkPasses(c, w, p)
                           then s.status.(network := None, router := None) else s.status
  {
    assert c.order == [] <==> w.resources == map[] by {
      assert c.order != [] ==> c.order[0] in w.resources;
    }
    if s.verdict.Go? && p.status.network.Some? {
      ResourcesRequested(c, p.status.network.value, |c.order|, s);
      assert c.order[..|c.order|] == c.order;
    }
  }

  /** The recorded status a deletion pass has reached. */
  ghost function Reached(c: Pass, w: World, p: Peer): Status {
    var dropped := p.status.network.Some? && w.resources == map[] && NetworkPasses(c, w, p);
    Status(if dropped then None else p.status.network,
           if KeyGoes(c, w, p) then None else p.status.key,
           if dropped then None else p.status.router)
  }

  lemma TeardownReached(c: Pass, p: Peer, w: World)
    requires Faithful(c, w)
    ensures AfterTeardown(c, p, w).verdict.Go? <==> EntryGoes(c, w, p)
    ensures AfterTeardown(c, p, w).status == Reached(c, w, p)
  {
    var s := AfterDeleteKey(c, AfterDeleteDeployment(c, Work(w, p.status, Go)));
    FirstHalf(c, p, w, s);
    var t := if s.verdict.Go? && GetGroup in c.down then s.(verdict := Stop) else s;
    NetworkHalf(c, p, w, t);
    var n := AfterDeleteNetwork(c, t);
    var r := AfterReleaseGroup(c, n);
    ReleaseStage(c, n);
    if r.world.group.Some? && r.world.group.value.id.Some? {
      AccountStage(c, r.world.group.value.id.value, false, r);
    }
  }

  lemma ReleaseStage(c: Pass, s: Work)
    ensures var t := AfterReleaseGroup(c, s);
            && (t.verdict.Go? <==> s.verdict.Go? && (HoldsGroup(s.world) ==> UpdateGroup !in c.down))
            && t.status == s.status && t.world == s.world.(group := t.world.group)
            && (if s.verdict.Go? && HoldsGroup(s.world) && UpdateGroup !in c.down
                then t.world.group.Some? && Freed(s.world.group.value, t.world.group.value)
                else t.world.group == s.world.group)
  {
    assert ROUTING_PEER_CLEANUP == "openzro.io/routing-peer-cleanup";
    if s.world.group.Some? {
      var finalizers := s.world.group.value.finalizers;
      forall f ensures f in Drop(finalizers, {ROUTING_PEER_CLEANUP}) <==> f in finalizers && f != ROUTING_PEER_CLEANUP {
        DropMembers(finalizers, {ROUTING_PEER_CLEANUP}, f);
      }
    }
  }

  /** h is g without the routing peer's finalizer. */
  ghost predicate Freed(g: Group, h: Group) {
    && h == g.(finalizers := h.finalizers)
    && forall f :: f in h.finalizers <==> f in g.finalizers && f != "openzro.io/routing-peer-cleanup"
  }

  /** Whatever fails: the peer goes exactly when every stage is passed, no network stays recorded and the last update
      succeeds; otherwise its status says how far the pass got, unless that last update or the status write fails. */
  lemma PeerAfterTeardown(c: Pass, w: World)
    requires Faithful(c, w) && w.peer.Some? && w.peer.value.deleting && w.peer.value.finalizers != []
    requires GetPeer !in c.down
    ensures var p := w.peer.value;
            AfterPass(c, w).peer ==
              if EntryGoes(c, w, p) && (p.status.network == None || w.resources == map[])
              then (if UpdatePeer in c.down then Some(p) else None)
              else if WriteStatus in c.down then Some(p) else Some(p.(status := Reached(c, w, p)))
  {
    TeardownReached(c, w.peer.value, w);
    Teardown.TeardownPieces(c, w.peer.value, w);
  }

  /** Whatever fails: the group loses the routing peer's finalizer, and nothing else, exactly when every stage before
      is passed and its update succeeds. */
  lemma GroupAfterTeardown(c: Pass, w: World)
    requires Faithful(c, w) && w.peer.Some? && w.peer.value.deleting && w.peer.value.finalizers != []
    requires GetPeer !in c.down
    ensures var p, v := w.peer.value, AfterPass(c, w);
            if NetworkPasses(c, w, p) && HoldsGroup(w) && UpdateGroup !in c.down
            then v.group.Some? && Freed(w.group.value, v.group.value)
            else v.group == w.group
  {
    var p := w.peer.value;
    var s := AfterDeleteKey(c, AfterDeleteDeployment(c, Work(w, p.status, Go)));
    FirstHalf(c, p, w, s);
    var t := if s.verdict.Go? && GetGroup in c.down then s.(verdict := Stop) else s;
    NetworkHalf(c, p, w, t);
    ReleaseStage(c, AfterDeleteNetwork(c, t));
    assert AfterPass(c, w).group == AfterTeardown(c, p, w).world.group;
  }
}
