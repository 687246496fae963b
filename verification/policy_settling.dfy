// Single-controller properties of OZPolicy passes: what two clean passes settle, what a failing one may
// leak, and what deletion guarantees.
module PolicySettling {
  import opened KeyNames
  import opened PolicyObjects
  import opened PolicySync
  import opened Tables

  ghost function RecordedIds(p: Policy): set<nat> {
    Ids(p.tcpId) + Ids(p.udpId)
  }

  /** The recorded IDs were handed out by the server, one per protocol. */
  ghost predicate WellRecorded(p: Policy, remote: Table<RemotePolicy>) {
    && (p.tcpId.Some? ==> p.tcpId.value < remote.next) && (p.udpId.Some? ==> p.udpId.value < remote.next)
    && (p.tcpId.Some? && p.udpId.Some? ==> p.tcpId != p.udpId)
  }

  /** A protocol whose remote policy is as the policy asks: in place when wanted, absent when not. */
  ghost predicate Settled(i: Input, p: Protocol, s: Progress) {
    if Wanted(s.policy.spec, i, p)
    then s.remote.Live(Id(s.policy, p)) && s.remote.rows[Id(s.policy, p).value] == Desired(s.policy.spec, i, p)
    else Id(s.policy, p) == None
  }

  ghost predicate Clean(c: Pass) {
    Runs(c) && c.down == {} && Recognized(c.missing)
  }

  function Other(p: Protocol): Protocol {
    match p
    case Tcp => Udp
    case Udp => Tcp
  }

  /** A clean step leaves its protocol settled, or unrecorded if the recorded policy had vanished. */
  ghost predicate CleanStep(i: Input, p: Protocol, s: Progress, t: Progress) {
    && !t.err && WellRecorded(t.policy, t.remote)
    && t.policy == WithId(s.policy, p, Id(t.policy, p))
    && (Settled(i, p, t) || (Id(s.policy, p).Some? && !s.remote.Live(Id(s.policy, p)) && Id(t.policy, p) == None))
    && (Settled(i, Other(p), s) ==> Settled(i, Other(p), t))
    && (s.remote.Live(Id(s.policy, Other(p))) <==> t.remote.Live(Id(s.policy, Other(p))))
    && t.remote.rows.Keys == s.remote.rows.Keys - Ids(Id(s.policy, p)) + Ids(Id(t.policy, p))
    && (forall id :: id in t.remote.rows && id !in Ids(Id(t.policy, p)) ==>
          id in s.remote.rows && t.remote.rows[id] == s.remote.rows[id])
    && Id(t.policy, p) in {None, Id(s.policy, p), Some(s.remote.next)} && t.remote.next >= s.remote.next
  }

  lemma StepRecords(c: Pass, i: Input, p: Protocol, s: Progress, t: Progress)
    requires Clean(c) && !s.err && WellRecorded(s.policy, s.remote) && t == AfterProtocol(c, i, p, s)
    ensures !t.err && WellRecorded(t.policy, t.remote) && t.policy == WithId(s.policy, p, Id(t.policy, p))
    ensures t.remote.rows.Keys == s.remote.rows.Keys - Ids(Id(s.policy, p)) + Ids(Id(t.policy, p))
    ensures Id(t.policy, p) in {None, Id(s.policy, p), Some(s.remote.next)} && t.remote.next >= s.remote.next
    ensures forall id :: id in t.remote.rows && id !in Ids(Id(t.policy, p)) ==>
              id in s.remote.rows && t.remote.rows[id] == s.remote.rows[id]
  {
  }

  lemma StepSettles(c: Pass, i: Input, p: Protocol, s: Progress, t: Progress)
    requires Clean(c) && !s.err && WellRecorded(s.policy, s.remote) && t == AfterProtocol(c, i, p, s)
    ensures Settled(i, p, t) || (Id(s.policy, p).Some? && !s.remote.Live(Id(s.policy, p)) && Id(t.policy, p) == None)
  {
  }

  lemma OtherStays(i: Input, p: Protocol, s: Progress, t: Progress)
    requires WellRecorded(s.policy, s.remote) && WellRecorded(t.policy, t.remote)
    requires t.policy == WithId(s.policy, p, Id(t.policy, p))
    requires t.remote.rows.Keys == s.remote.rows.Keys - Ids(Id(s.policy, p)) + Ids(Id(t.policy, p))
    requires forall id :: id in t.remote.rows && id !in Ids(Id(t.policy, p)) ==>
               id in s.remote.rows && t.remote.rows[id] == s.remote.rows[id]
    ensures Settled(i, Other(p), s) ==> Settled(i, Other(p), t)
    ensures s.remote.Live(Id(s.policy, Other(p))) <==> t.remote.Live(Id(s.policy, Other(p)))
  {
    assert Id(t.policy, Other(p)) == Id(s.policy, Other(p));
  }

  lemma StepIsClean(c: Pass, i: Input, p: Protocol, s: Progress, t: Progress)
    requires Clean(c) && !s.err && WellRecorded(s.policy, s.remote) && t == AfterProtocol(c, i, p, s)
    ensures CleanStep(i, p, s, t)
  {
    StepRecords(c, i, p, s, t);
    StepSettles(c, i, p, s, t);
    OtherStays(i, p, s, t);
  }

  /** Both protocols done, in either order. */
  ghost predicate CleanSync(i: Input, s: Progress, t: Progress) {
    && !t.err && WellRecorded(t.policy, t.remote)
    && t.policy == s.policy.(tcpId := t.policy.tcpId, udpId := t.policy.udpId)
    && (forall p ::
          Settled(i, p, t) || (Id(s.policy, p).Some? && !s.remote.Live(Id(s.policy, p)) && Id(t.policy, p) == None))
    && t.remote.rows.Keys == s.remote.rows.Keys - RecordedIds(s.policy) + RecordedIds(t.policy)
    && (forall id :: id in RecordedIds(t.policy) ==> id in RecordedIds(s.policy) || id >= s.remote.next)
  }

  lemma StepsSettle(i: Input, p: Protocol, s: Progress, u: Progress, t: Progress)
    requires CleanStep(i, p, s, u) && CleanStep(i, Other(p), u, t)
    ensures forall q ::
              Settled(i, q, t) || (Id(s.policy, q).Some? && !s.remote.Live(Id(s.policy, q)) && Id(t.policy, q) == None)
  {
    forall q
      ensures Settled(i, q, t) || (Id(s.policy, q).Some? && !s.remote.Live(Id(s.policy, q)) && Id(t.policy, q) == None)
    {
      assert q == p || q == Other(p);
    }
  }

  lemma FreshAreFresh(p: Protocol, s: Progress, u: Progress, t: Progress, i: Input)
    requires CleanStep(i, p, s, u) && CleanStep(i, Other(p), u, t)
    ensures forall id :: id in Ids(Id(t.policy, p)) + Ids(Id(t.policy, Other(p))) ==>
              id in Ids(Id(s.policy, p)) + Ids(Id(s.policy, Other(p))) || id >= s.remote.next
  {
    assert Id(u.policy, Other(p)) == Id(s.policy, Other(p)) && Id(t.policy, p) == Id(u.policy, p);
  }

  lemma KeysCompose(s: set<nat>, u: set<nat>, t: set<nat>, a: set<nat>, a': set<nat>, b: set<nat>, b': set<nat>)
    requires u == s - a + a' && t == u - b + b' && a' !! b
    ensures t == s - (a + b) + (a' + b')
  {
  }

  lemma StepsKeep(i: Input, p: Protocol, s: Progress, u: Progress, t: Progress)
    requires WellRecorded(s.policy, s.remote) && CleanStep(i, p, s, u) && CleanStep(i, Other(p), u, t)
    ensures t.remote.rows.Keys == s.remote.rows.Keys - RecordedIds(s.policy) + RecordedIds(t.policy)
    ensures forall id :: id in RecordedIds(t.policy) ==> id in RecordedIds(s.policy) || id >= s.remote.next
  {
    var q := Other(p);
    assert Id(u.policy, q) == Id(s.policy, q) && Id(t.policy, p) == Id(u.policy, p);
    assert RecordedIds(s.policy) == Ids(Id(s.policy, p)) + Ids(Id(s.policy, q));
    assert RecordedIds(t.policy) == Ids(Id(t.policy, p)) + Ids(Id(t.policy, q));
    FreshAreFresh(p, s, u, t, i);
    KeysCompose(s.remote.rows.Keys, u.remote.rows.Keys, t.remote.rows.Keys,
                Ids(Id(s.policy, p)), Ids(Id(u.policy, p)), Ids(Id(s.policy, q)), Ids(Id(t.policy, q)));
  }

  lemma SyncIsClean(c: Pass, i: Input, s: Progress, t: Progress)
    requires Clean(c) && !s.err && WellRecorded(s.policy, s.remote) && t == AfterProtocols(c, i, 2, s)
    ensures CleanSync(i, s, t)
  {
    var u := AfterProtocols(c, i, 1, s);
    assert u == AfterProtocol(c, i, c.order[0], AfterProtocols(c, i, 0, s));
    StepIsClean(c, i, c.order[0], s, u);
    StepIsClean(c, i, c.order[1], u, t);
    StepsSettle(i, c.order[0], s, u, t);
    StepsKeep(i, c.order[0], s, u, t);
  }

  lemma SecondSync(c: Pass, i: Input, s: Progress, t: Progress)
    requires Clean(c) && !s.err && WellRecorded(s.policy, s.remote) && t == AfterProtocols(c, i, 2, s)
    requires forall p :: s.remote.Live(Id(s.policy, p)) || Id(s.policy, p) == None
    ensures forall p :: Settled(i, p, t)
  {
    SyncIsClean(c, i, s, t);
  }

  lemma {:induction false} LiveKeysTwice(resources: map<Key, Resource>, managed: seq<Key>)
    ensures LiveKeys(resources, LiveKeys(resources, managed)) == LiveKeys(resources, managed)
  {
    if managed != [] {
      var rest := LiveKeys(resources, managed[..|managed| - 1]);
      LiveKeysTwice(resources, managed[..|managed| - 1]);
      var all := LiveKeys(resources, managed);
      if all != rest {
        assert all[..|all| - 1] == rest;
      }
    }
  }

  ghost predicate Active(w: World, name: string) {
    name in w.policies && !w.policies[name].deleting && WellRecorded(w.policies[name], w.remote)
  }

  ghost function Start(w: World, name: string): Progress
    requires name in w.policies
  {
    var p := w.policies[name];
    Progress(p.(managed := LiveKeys(w.resources, p.managed)), w.remote, false, false)
  }

  lemma CleanPass(c: Pass, w: World, name: string)
    requires Clean(c) && Active(w, name)
    ensures var i := InputOf(w, name, w.policies[name]);
            var t := AfterProtocols(c, i, 2, Start(w, name));
            var o := AfterPass(c, w, name);
            && !o.err && !t.err
            && o.world == w.(remote := t.remote, policies := w.policies[name := t.policy])
            && Active(o.world, name) && InputOf(o.world, name, t.policy) == i
  {
    var p := w.policies[name];
    var i := InputOf(w, name, p);
    SyncIsClean(c, i, Start(w, name), AfterProtocols(c, i, 2, Start(w, name)));
    LiveKeysTwice(w.resources, p.managed);
    var q := AfterProtocols(c, i, 2, Start(w, name)).policy;
    var keys := LiveKeys(w.resources, p.managed);
    MergedSame(w.resources, keys, name, p, q);
  }

  lemma {:induction false} MergedSame(resources: map<Key, Resource>, keys: seq<Key>, name: string, p: Policy, q: Policy)
    requires p.generatedBy == q.generatedBy
    ensures MergedGroups(resources, keys, name, p) == MergedGroups(resources, keys, name, q)
    ensures forall proto :: MergedPorts(resources, keys, name, p, proto) == MergedPorts(resources, keys, name, q, proto)
  {
    if keys != [] {
      MergedSame(resources, keys[..|keys| - 1], name, p, q);
    }
  }

  /** Two clean passes, in whatever map order each of them saw, settle both protocols: the recorded policy
      is the desired one, an unwanted protocol has none, and no other remote policy is created or removed.
      A recorded ID whose policy had vanished is replaced or cleared on the way. */
  lemma TwoPassesSettle(c1: Pass, c2: Pass, w: World, name: string)
    requires Clean(c1) && Clean(c2) && Active(w, name)
    ensures var u := AfterPass(c1, w, name);
            var v := AfterPass(c2, u.world, name);
            && !u.err && !v.err && Active(v.world, name)
            && var p, q := w.policies[name], v.world.policies[name];
            && q == p.(tcpId := q.tcpId, udpId := q.udpId, managed := LiveKeys(w.resources, p.managed))
            && (forall proto :: Settled(InputOf(w, name, p), proto, Progress(q, v.world.remote, false, false)))
            && v.world.remote.rows.Keys == w.remote.rows.Keys - RecordedIds(p) + RecordedIds(q)
            && v.world.resources == w.resources && v.world.groups == w.groups
  {
    var p := w.policies[name];
    var i := InputOf(w, name, p);
    var t1 := AfterProtocols(c1, i, 2, Start(w, name));
    var w1 := AfterPass(c1, w, name).world;
    CleanPass(c1, w, name);
    SyncIsClean(c1, i, Start(w, name), t1);
    LiveKeysTwice(w.resources, p.managed);
    assert Start(w1, name) == Progress(t1.policy, t1.remote, false, false);
    var t2 := AfterProtocols(c2, i, 2, Start(w1, name));
    CleanPass(c2, w1, name);
    SecondSync(c2, i, Start(w1, name), t2);
    SyncIsClean(c2, i, Start(w1, name), t2);
    forall proto ensures Settled(i, proto, Progress(t2.policy, t2.remote, false, false)) {
      assert Settled(i, proto, t2);
    }
    assert RecordedIds(t1.policy) * (w.remote.rows.Keys - RecordedIds(p)) == {};
  }
}
