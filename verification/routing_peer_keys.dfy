// The setup key of a routing peer: it never leaks, and when it converges.
module RoutingPeerKeys {
  import opened RoutingPeer
  import opened Tables

  // ----- no leaked keys -----

  /** Every live key the operator made for the peer is the one its persisted status names, or one of `gone`. */
  ghost predicate NamedBut(w: World, gone: set<nat>) {
    && (w.peer.Some? && w.peer.value.status.key.Some? ==> w.peer.value.status.key.value < w.keys.next)
    && (forall id :: id in gone ==> id < w.keys.next)
    && w.keys.rows.Keys <= (if w.peer.Some? then Ids(w.peer.value.status.key) else {}) + gone
  }

  /** Every live key the operator made for the peer is the one its persisted status names. */
  ghost predicate NoLeak(w: World) {
    NamedBut(w, {})
  }

  /** What the environment may do meanwhile: anything but write the status of an existing peer or make keys for
      it. A peer without finalizers may go at once; one that comes names no key. */
  ghost predicate Environment(w: World, v: World) {
    && v.keys.next >= w.keys.next && v.keys.rows.Keys <= w.keys.rows.Keys
    && (w.peer.Some? && v.peer.Some? ==> v.peer.value.status == w.peer.value.status)
    && (w.peer.Some? && v.peer == None ==> w.peer.value.finalizers == [])
    && (w.peer == None && v.peer.Some? ==> v.peer.value.status.key == None)
  }

  /** A peer goes without a deletion pass while its recorded key is live. The operator adds finalizers only to
      peers it creates itself, so this happens to any other peer. */
  predicate Abandons(w: World, v: World) {
    w.peer.Some? && v.peer == None && v.keys.Live(w.peer.value.status.key)
  }

  lemma EnvironmentLeaksExactlyWhen(w: World, v: World)
    requires NoLeak(w) && Environment(w, v)
    ensures NoLeak(v) <==> !Abandons(w, v)
  {
    if Abandons(w, v) {
      assert w.peer.value.status.key.value in v.keys.rows.Keys;
    }
  }

  /** The pass gets as far as creating a key. */
  ghost predicate CreatesKey(c: Pass, w: World) {
    && GetPeer !in c.down && w.peer.Some? && !w.peer.value.deleting
    && Ready(c, w.peer.value, w).verdict.Go?
    && w.peer.value.status.key == None && CreateKey !in c.down
  }

  lemma {:induction false} ResourcesKeepKeys(c: Pass, network: nat, n: nat, s: Work)
    requires n <= |c.order|
    ensures var t := AfterDeleteResources(c, network, n, s);
            t.status == s.status && t.world == s.world.(resources := t.world.resources)
  {
    if n > 0 {
      ResourcesKeepKeys(c, network, n - 1, s);
    }
  }

  ghost predicate KeyNamed(s: Work, gone: set<nat>) {
    && (s.status.key.Some? ==> s.status.key.value < s.world.keys.next)
    && (forall id :: id in gone ==> id < s.world.keys.next)
    && s.world.keys.rows.Keys <= Ids(s.status.key) + gone
  }

  /** t differs from s in nothing that concerns the setup key. */
  ghost predicate SameKey(s: Work, t: Work) {
    && t.world.keys == s.world.keys && t.world.secret == s.world.secret && t.world.peer == s.world.peer
    && t.status.key == s.status.key
  }

  lemma RouterFrame(c: Pass, group: string, s: Work)
    ensures SameKey(s, AfterRouter(c, group, s))
  {
  }

  lemma TailFrame(c: Pass, group: string, exempt: bool, s: Work)
    ensures SameKey(s, AfterDeployment(c, AfterExempt(c, group, exempt, AfterRouter(c, group, s))))
  {
    RouterFrame(c, group, s);
    var t := AfterRouter(c, group, s);
    assert SameKey(t, AfterExempt(c, group, exempt, t));
  }

  function Ready(c: Pass, p: Peer, w: World): Work {
    AfterGroup(c, AfterNetwork(c, Work(w, p.status, Go)))
  }

  lemma ReadyFrame(c: Pass, p: Peer, w: World)
    ensures SameKey(Work(w, p.status, Go), Ready(c, p, w))
    ensures Ready(c, p, w).verdict.Go? ==> Ready(c, p, w).world.group.Some? && Ready(c, p, w).world.group.value.id.Some?
  {
  }

  lemma StagesFrame(c: Pass, p: Peer, w: World)
    ensures var s := Ready(c, p, w);
            if s.verdict.Stop? then AfterStages(c, p, w) == s
            else s.world.group.Some? && s.world.group.value.id.Some? &&
                 SameKey(AfterKey(c, s.world.group.value.id.value, s), AfterStages(c, p, w))
  {
    var s := Ready(c, p, w);
    ReadyFrame(c, p, w);
    if s.verdict.Go? {
      var group := s.world.group.value.id.value;
      TailFrame(c, group, if p.exempt.Some? then p.exempt.value else true, AfterKey(c, group, s));
    }
  }

  lemma KeyStage(c: Pass, group: string, s: Work, gone: set<nat>)
    requires KeyNamed(s, gone) && s.verdict.Go?
    ensures var t := AfterKey(c, group, s);
            && KeyNamed(t, gone) && t.world.peer == s.world.peer
            && if s.status.key == None && CreateKey !in c.down
               then s.world.keys.next in t.world.keys.rows.Keys && t.world.keys.next == s.world.keys.next + 1
               else t.world.keys.rows.Keys <= s.world.keys.rows.Keys && t.world.keys.next == s.world.keys.next
  {
  }

  lemma StagesName(c: Pass, p: Peer, w: World, gone: set<nat>)
    requires NamedBut(w, gone) && w.peer == Some(p) && !p.deleting && GetPeer !in c.down
    ensures var u := AfterStages(c, p, w);
            && KeyNamed(u, gone) && u.world.peer == w.peer
            && if CreatesKey(c, w)
               then w.keys.next in u.world.keys.rows.Keys && u.world.keys.next == w.keys.next + 1
               else u.world.keys.rows.Keys <= Ids(p.status.key) + gone && u.world.keys.next == w.keys.next
  {
    ReadyFrame(c, p, w);
    StagesFrame(c, p, w);
    var s := Ready(c, p, w);
    if s.verdict.Go? {
      KeyStage(c, s.world.group.value.id.value, s, gone);
    }
  }

  lemma TeardownNames(c: Pass, p: Peer, w: World, gone: set<nat>)
    requires NamedBut(w, gone) && w.peer == Some(p)
    ensures KeyNamed(AfterTeardown(c, p, w), gone)
    ensures AfterTeardown(c, p, w).world.keys.rows.Keys <= w.keys.rows.Keys
    ensures AfterTeardown(c, p, w).world.keys.next == w.keys.next
    ensures AfterTeardown(c, p, w).verdict.Go? ==> AfterTeardown(c, p, w).status.key == None
    ensures AfterTeardown(c, p, w).world.peer == w.peer
  {
    TeardownKeys(c, p, w);
  }

  /** The first stages of a teardown, which may drop the key. */
  function Begun(c: Pass, p: Peer, w: World): Work {
    var s := AfterDeleteKey(c, AfterDeleteDeployment(c, Work(w, p.status, Go)));
    if s.verdict.Go? && GetGroup in c.down then s.(verdict := Stop) else s
  }

  ghost predicate KeyDropped(p: Peer, w: World, u: Work) {
    && u.world.peer == w.peer && u.world.secret == w.secret
    && if p.status.key.Some? && u.status.key == None then u.world.keys == w.keys.Drop(p.status.key.value)
       else u.world.keys == w.keys && u.status.key == p.status.key && (u.verdict.Go? ==> p.status.key == None)
  }

  lemma BegunDrops(c: Pass, p: Peer, w: World)
    ensures KeyDropped(p, w, Begun(c, p, w))
  {
  }

  lemma NetworkStageFrame(c: Pass, s: Work)
    ensures SameKey(s, AfterDeleteNetwork(c, s)) && (s.verdict.Stop? ==> AfterDeleteNetwork(c, s).verdict.Stop?)
  {
    if s.status.network.Some? {
      ResourcesKeepKeys(c, s.status.network.value, |c.order|, s);
    }
  }

  lemma EndFrame(c: Pass, s: Work)
    ensures var t := AfterUnexempt(c, AfterReleaseGroup(c, s)); SameKey(s, t) && (s.verdict.Stop? ==> t.verdict.Stop?)
  {
  }

  /** A teardown touches the key, if at all, in its second stage. */
  lemma TeardownKeys(c: Pass, p: Peer, w: World)
    ensures KeyDropped(p, w, AfterTeardown(c, p, w))
  {
    BegunDrops(c, p, w);
    NetworkStageFrame(c, Begun(c, p, w));
    EndFrame(c, AfterDeleteNetwork(c, Begun(c, p, w)));
  }

  /** One pass, whatever fails: a key leaks exactly when it was created and the status write then failed. */
  lemma PassLeaksExactlyWhen(c: Pass, w: World, gone: set<nat>)
    requires NamedBut(w, gone)
    ensures !NamedBut(AfterPass(c, w), gone) <==> CreatesKey(c, w) && WriteStatus in c.down
  {
    if GetPeer !in c.down && w.peer.Some? {
      var p := w.peer.value;
      if !p.deleting {
        StagesName(c, p, w, gone);
        if CreatesKey(c, w) && WriteStatus in c.down {
          assert w.keys.next in AfterPass(c, w).keys.rows.Keys;
        }
      } else {
        TeardownNames(c, p, w, gone);
      }
    }
  }

  datatype Step = Outside | Run(pass: Pass)

  ghost predicate Follows(step: Step, w: World, v: World) {
    match step
    case Outside => Environment(w, v)
    case Run(c) => v == AfterPass(c, w)
  }

  /** A run: each world comes from the previous one by a pass or by the environment. */
  ghost predicate Trace(steps: seq<Step>, ws: seq<World>) {
    |ws| == |steps| + 1 && forall i :: 0 <= i < |steps| ==> Follows(steps[i], ws[i], ws[i + 1])
  }

  /** Keys whose peer went without a deletion pass. */
  ghost function Abandoned(steps: seq<Step>, ws: seq<World>): set<nat>
    requires |ws| == |steps| + 1
  {
    if steps == [] then {}
    else
      var n := |steps| - 1;
      Abandoned(steps[..n], ws[..n + 1])
      + if steps[n].Outside? && Abandons(ws[n], ws[n + 1]) then Ids(ws[n].peer.value.status.key) else {}
  }

  lemma NamedStep(step: Step, w: World, v: World, gone: set<nat>)
    requires NamedBut(w, gone) && Follows(step, w, v) && (step.Run? ==> WriteStatus !in step.pass.down)
    ensures NamedBut(v, gone + if step.Outside? && Abandons(w, v) then Ids(w.peer.value.status.key) else {})
  {
    if step.Run? {
      PassLeaksExactlyWhen(step.pass, w, gone);
      assert gone + {} == gone;
    }
  }

  /** Over every run in which any call but the status write may fail at any time, the live keys are at most
      the one key the persisted status names, and those of peers that went without a deletion pass. */
  lemma {:induction false} RunsLeakNothing(steps: seq<Step>, ws: seq<World>)
    requires Trace(steps, ws) && NoLeak(ws[0])
    requires forall i :: 0 <= i < |steps| && steps[i].Run? ==> WriteStatus !in steps[i].pass.down
    ensures NamedBut(ws[|steps|], Abandoned(steps, ws))
  {
    if steps != [] {
      var n := |steps| - 1;
      RunsLeakNothing(steps[..n], ws[..n + 1]);
      assert Follows(steps[n], ws[n], ws[n + 1]);
      NamedStep(steps[n], ws[n], ws[n + 1], Abandoned(steps[..n], ws[..n + 1]));
    }
  }

  /** So nothing at all leaks while every peer that goes has been through its deletion passes. */
  lemma {:induction false} FinalizedPeersLeakNothing(steps: seq<Step>, ws: seq<World>)
    requires Trace(steps, ws) && NoLeak(ws[0])
    requires forall i :: 0 <= i < |steps| && steps[i].Run? ==> WriteStatus !in steps[i].pass.down
    requires forall i :: 0 <= i < |steps| && steps[i].Outside? ==> !Abandons(ws[i], ws[i + 1])
    ensures NoLeak(ws[|steps|])
  {
    RunsLeakNothing(steps, ws);
    NobodyAbandoned(steps, ws);
  }

  lemma {:induction false} NobodyAbandoned(steps: seq<Step>, ws: seq<World>)
    requires |ws| == |steps| + 1
    requires forall i :: 0 <= i < |steps| && steps[i].Outside? ==> !Abandons(ws[i], ws[i + 1])
    ensures Abandoned(steps, ws) == {}
  {
    if steps != [] {
      var n := |steps| - 1;
      NobodyAbandoned(steps[..n], ws[..n + 1]);
      assert steps[n].Outside? ==> !Abandons(ws[n], ws[n + 1]);
    }
  }

  // ----- what the keys are for -----

  /** The peer's group object has this ID, or none yet. */
  predicate GroupIs(w: World, g: string) {
    w.group.Some? ==> w.group.value.id == None || w.group.value.id == Some(g)
  }

  /** Keys that are new in t serve group g; the others are as they were. */
  ghost predicate NewServe(s: Table<SetupKey>, t: Table<SetupKey>, g: string) {
    && t.next >= s.next
    && forall id :: id in t.rows ==>
         if id in s.rows then t.rows[id] == s.rows[id] else id >= s.next && t.rows[id].group == g && !t.rows[id].revoked
  }

  lemma KeyStageServes(c: Pass, group: string, s: Work)
    ensures NewServe(s.world.keys, AfterKey(c, group, s).world.keys, group)
  {
  }

  /** A key that a pass creates, whatever fails, carries the ID of the peer's group object at that moment. */
  lemma CreatedKeyServes(c: Pass, w: World, g: string)
    requires GroupIs(w, g)
    ensures NewServe(w.keys, AfterPass(c, w).keys, g)
  {
    if GetPeer !in c.down && w.peer.Some? {
      var p := w.peer.value;
      if p.deleting {
        TeardownKeys(c, p, w);
      } else {
        ReadyFrame(c, p, w);
        StagesFrame(c, p, w);
        GroupStays(c, p, w);
        var s := Ready(c, p, w);
        if s.verdict.Go? {
          KeyStageServes(c, g, s);
        }
      }
    }
  }

  lemma GroupStays(c: Pass, p: Peer, w: World)
    ensures var s := Ready(c, p, w); s.verdict.Go? ==> s.world.group == w.group
  {
  }

  /** The group object a pass makes has the name of the network, both finalizers and no ID yet. */
  lemma MadeGroup(c: Pass, w: World)
    requires w.group == None && AfterPass(c, w).group.Some?
    ensures AfterPass(c, w).group
         == Some(Group(c.name, ["openzro.io/group-cleanup", "openzro.io/routing-peer-cleanup"], None))
  {
    var p := w.peer.value;
    if p.deleting {
      TeardownGroup(c, p, w);
    } else {
      assert Ready(c, p, w).verdict.Stop?;
      StagesFrame(c, p, w);
    }
  }

  lemma TeardownGroup(c: Pass, p: Peer, w: World)
    requires w.group == None
    ensures AfterTeardown(c, p, w).world.group == None
  {
    var t := Begun(c, p, w);
    if t.verdict.Go? && t.status.network.Some? {
      ResourcesKeepKeys(c, t.status.network.value, |c.order|, t);
    }
    assert AfterDeleteNetwork(c, t).world.group == None;
  }

  /** A step of a run in which keys keep their group. */
  ghost predicate ServingStep(step: Step, w: World, v: World, g: string) {
    match step
    case Outside =>
      && v.keys.next >= w.keys.next
      && forall id :: id in v.keys.rows ==> id in w.keys.rows && v.keys.rows[id].group == w.keys.rows[id].group
    case Run(c) => GroupIs(w, g) && v == AfterPass(c, w)
  }

  /** Over every run in which the group keeps its ID, every key made in the run carries it. */
  lemma {:induction false} RunKeysServe(steps: seq<Step>, ws: seq<World>, g: string)
    requires |ws| == |steps| + 1
    requires forall i :: 0 <= i < |steps| ==> ServingStep(steps[i], ws[i], ws[i + 1], g)
    ensures ws[|steps|].keys.next >= ws[0].keys.next
    ensures forall id :: id in ws[|steps|].keys.rows && id >= ws[0].keys.next ==> ws[|steps|].keys.rows[id].group == g
  {
    if steps != [] {
      var n := |steps| - 1;
      RunKeysServe(steps[..n], ws[..n + 1], g);
      assert ServingStep(steps[n], ws[n], ws[n + 1], g);
      if steps[n].Run? {
        CreatedKeyServes(steps[n].pass, ws[n], g);
      }
    }
  }

  // ----- convergence -----

  ghost predicate LiveKey(w: World, s: Status) {
    w.keys.Live(s.key) && !w.keys.rows[s.key.value].revoked
  }

  /** A recorded, unrevoked key whose plaintext is the Secret's entry. */
  ghost predicate Converged(w: World, s: Status) {
    LiveKey(w, s) && w.secret == Some(Some(w.keys.rows[s.key.value].plain))
  }

  /** A recorded, unrevoked key beside a Secret entry that belongs to another key. */
  ghost predicate Stale(w: World, s: Status) {
    LiveKey(w, s) && w.secret.Some? && w.secret.value.Some? && w.secret != Some(Some(w.keys.rows[s.key.value].plain))
  }

  function KeyPass(c: Pass, group: string, s: Work): Work {
    AfterKey(c, group, s.(verdict := Go))
  }

  /** Two clean handleSetupKey passes converge from every state but a stale one; a third then changes
      nothing and lets the pass go on. */
  lemma TwoPassesConverge(c1: Pass, c2: Pass, c3: Pass, group: string, w: World, status: Status)
    requires c1.down == c2.down == c3.down == {}
    ensures var s1 := KeyPass(c1, group, Work(w, status, Go));
            var s2 := KeyPass(c2, group, s1);
            && (Converged(s2.world, s2.status) <==> !Stale(w, status))
            && (Converged(s2.world, s2.status) ==> KeyPass(c3, group, s2) == s2.(verdict := Go))
  {
  }

  /** Nothing ever repairs a stale entry: the check only asks whether the entry exists. */
  lemma StaleStays(c: Pass, group: string, w: World, status: Status)
    requires Stale(w, status)
    ensures var s := KeyPass(c, group, Work(w, status, Go));
            s.world == w && s.status == status
  {
  }

  /** How it comes about: a key was revoked and removed, and replacing it failed after the key was created
      but before the old Secret was updated. */
  lemma FailedUpdateGoesStale(c: Pass, group: string, w: World, status: Status, before: string)
    requires status.key == None && w.secret == Some(Some(before)) && before != c.plain
    requires c.down == {UpdateSecret}
    ensures var s := KeyPass(c, group, Work(w, status, Go));
            Stale(s.world, s.status)
  {
  }

  ghost predicate FreshNames(w: World) {
    w.peer.Some? && w.peer.value.status.key.Some? ==> w.peer.value.status.key.value < w.keys.next
  }

  ghost predicate NotStale(w: World) {
    FreshNames(w) && (w.peer.Some? ==> !Stale(w, w.peer.value.status))
  }

  /** The environment may revoke or delete keys and drop the Secret or its entry. */
  ghost predicate KeyEnvironment(w: World, v: World) {
    && Environment(w, v)
    && (forall id :: id in v.keys.rows ==> v.keys.rows[id].plain == w.keys.rows[id].plain)
    && (forall id :: id in v.keys.rows && w.keys.rows[id].revoked ==> v.keys.rows[id].revoked)
    && v.secret in {w.secret, None, Some(None)}
  }

  lemma KeyStageKeepsFresh(c: Pass, group: string, s: Work)
    requires c.down !! {CreateSecret, GetSecret, UpdateSecret} && s.verdict.Go? && !Stale(s.world, s.status)
    requires s.status.key.Some? ==> s.status.key.value < s.world.keys.next
    ensures var t := AfterKey(c, group, s);
            && !Stale(t.world, t.status) && !Stale(t.world, s.status)
            && t.world.keys.next >= s.world.keys.next
            && (t.status.key.Some? ==> t.status.key.value < t.world.keys.next)
  {
  }

  lemma StagesKeepFresh(c: Pass, p: Peer, w: World)
    requires w.peer == Some(p) && NotStale(w) && c.down !! {CreateSecret, GetSecret, UpdateSecret}
    ensures var u := AfterStages(c, p, w);
            && u.world.peer == w.peer
            && !Stale(u.world, u.status) && !Stale(u.world, p.status) && u.world.keys.next >= w.keys.next
            && (u.status.key.Some? ==> u.status.key.value < u.world.keys.next)
  {
    ReadyFrame(c, p, w);
    StagesFrame(c, p, w);
    var s := Ready(c, p, w);
    if s.verdict.Go? {
      KeyStageKeepsFresh(c, s.world.group.value.id.value, s);
    }
  }

  lemma PassKeepsFresh(c: Pass, w: World)
    requires NotStale(w) && c.down !! {CreateSecret, GetSecret, UpdateSecret}
    ensures NotStale(AfterPass(c, w))
  {
    if GetPeer !in c.down && w.peer.Some? {
      var p := w.peer.value;
      if !p.deleting {
        StagesKeepFresh(c, p, w);
      } else {
        TeardownFrame(c, p, w);
      }
    }
  }

  lemma TeardownFrame(c: Pass, p: Peer, w: World)
    ensures var u := AfterTeardown(c, p, w);
            && u.world.secret == w.secret && u.world.peer == w.peer && u.world.keys.next == w.keys.next
            && (u.status.key == p.status.key || u.status.key == None)
            && (forall id :: id in u.world.keys.rows ==> id in w.keys.rows && u.world.keys.rows[id] == w.keys.rows[id])
  {
    TeardownKeys(c, p, w);
  }

  /** So in every run whose reads and writes of the Secret succeed, with the environment free to revoke and delete, any
      state still converges within two clean passes. */
  lemma {:induction false} RunsConverge(ws: seq<World>, passes: seq<Pass>, c1: Pass, c2: Pass, group: string)
    requires |ws| == |passes| + 1 && NotStale(ws[0])
    requires forall i :: 0 <= i < |passes| ==> passes[i].down !! {CreateSecret, GetSecret, UpdateSecret}
    requires forall i :: 0 <= i < |passes| ==>
        ws[i + 1] == AfterPass(passes[i], ws[i]) || KeyEnvironment(ws[i], ws[i + 1])
    requires c1.down == c2.down == {}
    ensures NotStale(ws[|passes|])
    ensures ws[|passes|].peer.Some? ==>
            var s := KeyPass(c2, group, KeyPass(c1, group, Work(ws[|passes|], ws[|passes|].peer.value.status, Go)));
            Converged(s.world, s.status)
  {
    if passes != [] {
      var n := |passes| - 1;
      RunsConverge(ws[..n + 1], passes[..n], c1, c2, group);
      if ws[n + 1] == AfterPass(passes[n], ws[n]) {
        PassKeepsFresh(passes[n], ws[n]);
      }
    }
    if ws[|passes|].peer.Some? {
      TwoPassesConverge(c1, c2, c1, group, ws[|passes|], ws[|passes|].peer.value.status);
    }
  }
}
