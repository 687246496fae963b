// What repeated OZRoutingPeer passes reach: networks and routers are never duplicated, and three clean passes
// settle everything the peer needs.
module RoutingPeerSettling {
  import opened ExemptList
  import opened RoutingPeer
  import opened RoutingPeerKeys
  import opened Tables
  import opened Teardown

  // ----- no duplicates -----

  /** The networks and routers of t are those of s, some gone and some routers corrected. */
  ghost predicate NothingNew(s: World, t: World) {
    && t.networks.next >= s.networks.next && t.routers.next >= s.routers.next
    && (forall n :: n in t.networks.rows ==> n in s.networks.rows && t.networks.rows[n] == s.networks.rows[n])
    && (forall r :: r in t.routers.rows ==>
          r in s.routers.rows && t.routers.rows[r].network == s.routers.rows[r].network)
  }

  lemma NothingNewKeeps(s: World, t: World)
    requires NothingNew(s, t)
    ensures UniqueNetworks(s) ==> UniqueNetworks(t)
    ensures OneRouter(s) ==> OneRouter(t)
  {
  }

  lemma NetworkStageKeeps(c: Pass, s: Work)
    requires Faithful(c, s.world)
    ensures var t := AfterNetwork(c, s).world;
            && t == s.world.(networks := t.networks)
            && (UniqueNetworks(s.world) ==> UniqueNetworks(t))
  {
  }

  lemma RouterStageKeeps(c: Pass, group: string, s: Work, w: World)
    requires Faithful(c, w) && s.world.routers == w.routers
    ensures var t := AfterRouter(c, group, s).world;
            && t == s.world.(routers := t.routers)
            && (OneRouter(s.world) ==> OneRouter(t))
  {
  }

  /** The stages besides these two leave networks and routers alone. */
  lemma OtherStagesKeep(c: Pass, group: string, exempt: bool, s: Work)
    ensures var t := AfterGroup(c, s).world; t.networks == s.world.networks && t.routers == s.world.routers
    ensures var t := AfterKey(c, group, s).world; t.networks == s.world.networks && t.routers == s.world.routers
    ensures var t := AfterDeployment(c, AfterExempt(c, group, exempt, s)).world;
            t.networks == s.world.networks && t.routers == s.world.routers
  {
  }

  lemma StagesDuplicateNothing(c: Pass, p: Peer, w: World)
    requires Faithful(c, w)
    ensures var t := AfterStages(c, p, w).world;
            (UniqueNetworks(w) ==> UniqueNetworks(t)) && (OneRouter(w) ==> OneRouter(t))
  {
    var start := Work(w, p.status, Go);
    var s := Ready(c, p, w);
    var flag := if p.exempt.Some? then p.exempt.value else true;
    NetworkStageKeeps(c, start);
    OtherStagesKeep(c, "", flag, AfterNetwork(c, start));
    if s.verdict.Go? {
      var group := s.world.group.value.id.value;
      OtherStagesKeep(c, group, flag, s);
      var k := AfterKey(c, group, s);
      RouterStageKeeps(c, group, k, w);
      OtherStagesKeep(c, group, flag, AfterRouter(c, group, k));
    }
  }

  lemma TeardownAddsNothing(c: Pass, p: Peer, w: World)
    ensures NothingNew(w, AfterTeardown(c, p, w).world)
  {
    var t := Begun(c, p, w);
    BegunKeeps(c, p, w);
    NetworkStage(c, t);
    LastStages(c, AfterDeleteNetwork(c, t));
  }

  lemma PassDuplicatesNothing(c: Pass, w: World)
    requires Faithful(c, w)
    ensures UniqueNetworks(w) ==> UniqueNetworks(AfterPass(c, w))
    ensures OneRouter(w) ==> OneRouter(AfterPass(c, w))
  {
    if GetPeer !in c.down && w.peer.Some? {
      var p := w.peer.value;
      if p.deleting {
        TeardownAddsNothing(c, p, w);
        NothingNewKeeps(w, AfterTeardown(c, p, w).world);
      } else {
        StagesDuplicateNothing(c, p, w);
      }
    }
  }

  /** A pass of this peer or, through a step that changes the peer and its objects at will, of any other. */
  ghost predicate Follows(c: Option<Pass>, w: World, v: World) {
    match c
    case None => NothingNew(w, v)
    case Some(c) => Faithful(c, w) && v == AfterPass(c, w)
  }

  /** Over every run of passes of any routing peers, whatever fails, the status write included, and however often
      IDs are lost with it: network names stay unique and a network never gets a second router, if nobody else
      makes any. */
  lemma {:induction false} NeverDuplicated(steps: seq<Option<Pass>>, ws: seq<World>)
    requires |ws| == |steps| + 1 && UniqueNetworks(ws[0]) && OneRouter(ws[0])
    requires forall i :: 0 <= i < |steps| ==> Follows(steps[i], ws[i], ws[i + 1])
    ensures UniqueNetworks(ws[|steps|]) && OneRouter(ws[|steps|])
  {
    if steps != [] {
      var n := |steps| - 1;
      NeverDuplicated(steps[..n], ws[..n + 1]);
      assert Follows(steps[n], ws[n], ws[n + 1]);
      match steps[n] {
        case None => NothingNewKeeps(ws[n], ws[n + 1]);
        case Some(c) => PassDuplicatesNothing(c, ws[n]);
      }
    }
  }

  // ----- settling -----

  /** A live peer whose group has this ID; recorded IDs were handed out by the server. */
  ghost predicate Waiting(w: World, g: string) {
    && w.peer.Some? && !w.peer.value.deleting && w.group.Some? && w.group.value.id == Some(g)
    && FreshNames(w) && OneRouter(w)
    && var n := w.peer.value.status.network;
       n.Some? ==> n.value < w.networks.next
  }

  function StatusOf(w: World): Status
    requires w.peer.Some?
  {
    w.peer.value.status
  }

  function Flag(p: Peer): bool {
    if p.exempt.Some? then p.exempt.value else true
  }

  /** The recorded key is usable and the Secret has an entry. */
  ghost predicate KeyInPlace(w: World, s: Status) {
    LiveKey(w, s) && w.secret.Some? && w.secret.value.Some?
  }

  /** Everything the peer asks for is there and recorded. */
  ghost predicate Settled(w: World, g: string) {
    && Waiting(w, g)
    && var s := StatusOf(w);
    && w.networks.Live(s.network) && s.router.Some? && Served(w, s.network.value)
    && (forall r :: r in w.routers.rows && w.routers.rows[r].network == s.network.value ==>
          w.routers.rows[r] == Router(s.network.value, true, true, 9999, [g]))
    && KeyInPlace(w, s) && w.deployment
    && (w.account.Account? ==> (g in Listed(w.account) <==> w.peer.value.exempt != Some(false)))
  }

  lemma SettledAccount(a: Account, g: string, flag: bool)
    ensures Applied(a, g, flag) == a <==> (a.Account? ==> (g in Listed(a) <==> flag))
  {
    if a.Account? {
      AppliedFacts(a, g, flag, {});
    }
  }

  /** A pass over a settled peer changes nothing, whatever fails. */
  lemma SettledIsQuiet(c: Pass, w: World, g: string)
    requires Settled(w, g) && Faithful(c, w)
    ensures AfterPass(c, w) == w
  {
    var p := w.peer.value;
    var n := p.status.network.value;
    var s := Ready(c, p, w);
    assert s.world == w && s.status == p.status;
    SettledAccount(w.account, g, Flag(p));
    if s.verdict.Go? {
      var r :| r in w.routers.rows && w.routers.rows[r].network == n;
      assert RouterListed(c, w.routers, n);
      var k := AfterKey(c, g, s);
      assert k.world == w && k.status == p.status;
      assert AfterRouter(c, g, k).world == w && AfterRouter(c, g, k).status == p.status;
    }
  }

  /** The key is in place, or its record was cleared so that the next pass makes a new one. */
  ghost predicate KeyReady(w: World, s: Status) {
    s.key == None || KeyInPlace(w, s)
  }

  lemma KeyStageReady(c: Pass, g: string, s: Work)
    requires c.down == {} && s.verdict.Go? && (s.status.key.Some? ==> s.status.key.value < s.world.keys.next)
    ensures var t := AfterKey(c, g, s);
            && KeyReady(t.world, t.status) && (t.verdict.Go? ==> KeyInPlace(t.world, t.status))
            && (KeyReady(s.world, s.status) ==> t.verdict.Go?)
            && t.world == s.world.(keys := t.world.keys, secret := t.world.secret) &&
                 t.status == s.status.(key := t.status.key)
            && (t.status.key.Some? ==> t.status.key.value < t.world.keys.next)
  {
  }

  lemma RouterStageReady(c: Pass, g: string, s: Work, w: World)
    requires c.down == {} && s.verdict.Go? && s.status.network.Some?
    requires Faithful(c, w) && s.world.routers == w.routers && OneRouter(w)
    ensures var t := AfterRouter(c, g, s);
            && t.verdict.Go? && t.world == s.world.(routers := t.world.routers) &&
                 t.status == s.status.(router := t.status.router)
            && t.status.router.Some? && Served(t.world, s.status.network.value)
            && (s.status.router.Some? ==>
                  forall r :: r in t.world.routers.rows && t.world.routers.rows[r].network == s.status.network.value ==>
                    t.world.routers.rows[r] == WantedRouter(s.status.network.value, g))
  {
    var n := s.status.network.value;
    var t := AfterRouter(c, g, s);
    if RouterListed(c, w.routers, n) {
      assert t.world.routers.rows[c.firstRouter[n]].network == n;
    } else {
      assert w.routers.next in t.world.routers.rows && t.world.routers.rows[w.routers.next].network == n;
    }
  }

  lemma LastStagesReady(c: Pass, g: string, flag: bool, s: Work)
    requires c.down == {} && s.verdict.Go?
    ensures var t := AfterDeployment(c, AfterExempt(c, g, flag, s));
            && t.verdict.Go? && t.world.deployment && Applied(t.world.account, g, flag) == t.world.account
            && t.world == s.world.(account := t.world.account, deployment := true) && t.status == s.status
  {
    AppliedTwice(s.world.account, g, flag);
  }

  lemma AppliedTwice(a: Account, g: string, flag: bool)
    ensures Applied(Applied(a, g, flag), g, flag) == Applied(a, g, flag)
  {
    if a.Account? {
      AppliedFacts(a, g, flag, {});
    }
  }

  lemma NetworkReady(c: Pass, w: World, g: string)
    requires c.down == {} && Faithful(c, w) && Waiting(w, g)
    ensures var p := w.peer.value;
            var s := Ready(c, p, w);
            && s.verdict.Go? && s.status.network.Some? && s.status == p.status.(network := s.status.network)
            && s.world == w.(networks := s.world.networks)
            && (p.status.network.Some? ==> s.status.network == p.status.network && s.world == w)
            && (s.world.networks.Live(s.status.network) <==>
                  p.status.network == None || w.networks.Live(p.status.network))
            && s.status.network.value < s.world.networks.next
  {
  }

  /** What one clean pass does for a waiting peer. */
  ghost predicate CleanPassFacts(w: World, v: World, g: string)
    requires Waiting(w, g)
  {
    && Waiting(v, g)
    && var s, t := StatusOf(w), StatusOf(v);
    && t.network.Some? && (w.peer.value.exempt == v.peer.value.exempt)
    && (s.network.Some? ==> t.network == s.network && v.networks == w.networks)
    && (v.networks.Live(t.network) <==> s.network == None || w.networks.Live(s.network))
    && KeyReady(v, t)
    && (KeyReady(w, s) ==>
          && KeyInPlace(v, t) && t.router.Some? && Served(v, t.network.value) && v.deployment
          && Applied(v.account, g, Flag(v.peer.value)) == v.account
          && (s.router.Some? ==>
                forall r :: r in v.routers.rows && v.routers.rows[r].network == t.network.value ==>
                  v.routers.rows[r] == WantedRouter(t.network.value, g)))
  }

  lemma CleanPass(c: Pass, w: World, g: string)
    requires c.down == {} && Faithful(c, w) && Waiting(w, g)
    ensures CleanPassFacts(w, AfterPass(c, w), g)
  {
    var p := w.peer.value;
    var s := Ready(c, p, w);
    NetworkReady(c, w, g);
    KeyStageReady(c, g, s);
    PassDuplicatesNothing(c, w);
    var k := AfterKey(c, g, s);
    if k.verdict.Go? {
      RouterStageReady(c, g, k, w);
      LastStagesReady(c, g, Flag(p), AfterRouter(c, g, k));
    }
    PassAssembled(c, w, g);
  }

  /** The whole pass from its stages. */
  lemma PassAssembled(c: Pass, w: World, g: string)
    requires c.down == {} && Waiting(w, g) && Ready(c, w.peer.value, w).verdict.Go?
    requires Ready(c, w.peer.value, w).world.group == w.group
    ensures var p := w.peer.value;
            var k := AfterKey(c, g, Ready(c, p, w));
            var t := AfterDeployment(c, AfterExempt(c, g, Flag(p), AfterRouter(c, g, k)));
            AfterPass(c, w) == t.world.(peer := Some(p.(status := t.status)))
            && (k.verdict.Stop? ==> t == k)
  {
  }

  /** Three clean passes settle a peer whose group has its ID, exactly when no network is recorded that the
      server no longer has; a further pass then changes nothing. */
  lemma ThreePassesSettle(c1: Pass, c2: Pass, c3: Pass, w: World, g: string)
    requires c1.down == c2.down == c3.down == {} && Waiting(w, g)
    requires Faithful(c1, w) && Faithful(c2, AfterPass(c1, w)) && Faithful(c3, AfterPass(c2, AfterPass(c1, w)))
    ensures var v := AfterPass(c3, AfterPass(c2, AfterPass(c1, w)));
            && (Settled(v, g) <==> StatusOf(w).network == None || w.networks.Live(StatusOf(w).network))
            && (Settled(v, g) ==> forall c :: Faithful(c, v) ==> AfterPass(c, v) == v)
            && (Settled(v, g) && NotStale(w) ==> Converged(v, StatusOf(v)))
            && (Settled(v, g) && StatusOf(v).key.value >= w.keys.next ==> v.keys.rows[StatusOf(v).key.value].group == g)
  {
    var u1 := AfterPass(c1, w);
    CleanPass(c1, w, g);
    var u2 := AfterPass(c2, u1);
    CleanPass(c2, u1, g);
    var v := AfterPass(c3, u2);
    CleanPass(c3, u2, g);
    RunKeysServe([Run(c1), Run(c2), Run(c3)], [w, u1, u2, v], g);
    SettledAccount(v.account, g, Flag(v.peer.value));
    if Settled(v, g) {
      forall c | Faithful(c, v) ensures AfterPass(c, v) == v {
        SettledIsQuiet(c, v, g);
      }
      if NotStale(w) {
        PassKeepsFresh(c1, w);
        PassKeepsFresh(c2, u1);
        PassKeepsFresh(c3, u2);
      }
    }
  }

  /** The other case never heals: no pass over a live peer looks at a recorded network again. */
  lemma RecordedNetworkStays(c: Pass, w: World)
    requires w.peer.Some? && !w.peer.value.deleting && w.peer.value.status.network.Some?
    ensures AfterPass(c, w).peer.Some? && StatusOf(AfterPass(c, w)).network == StatusOf(w).network
  {
    var p := w.peer.value;
    StagesKeepNetworks(c, p, w);
    var s := Ready(c, p, w);
    assert s.status.network == p.status.network;
  }
}
