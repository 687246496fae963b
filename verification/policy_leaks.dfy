// What OZPolicy passes may leave behind on the server when calls fail.
module PolicyLeaks {
  import opened Finalizers
  import opened KeyNames
  import opened PolicyObjects
  import opened PolicySettling
  import opened PolicySync
  import opened Tables

  /** Remote policies created between s and t. */
  ghost function Created(s: Table<RemotePolicy>, t: Table<RemotePolicy>): set<nat> {
    t.rows.Keys - s.rows.Keys
  }

  /** Server rows the persisted policy object does not name. */
  ghost function Orphans(w: World, name: string): set<nat> {
    w.remote.rows.Keys - if name in w.policies then RecordedIds(w.policies[name]) else {}
  }

  /** One protocol step creates at most one policy, which it then names, and drops nothing it did not name. */
  ghost predicate Step(p: Protocol, s: Progress, t: Progress) {
    && (s.err ==> t == s)
    && t.policy == WithId(s.policy, p, Id(t.policy, p))
    && s.remote.next <= t.remote.next
    && Created(s.remote, t.remote) <= {s.remote.next}
    && (Created(s.remote, t.remote) != {} ==> !t.err && Id(t.policy, p) == Some(s.remote.next))
    && Id(t.policy, p) in {None, Id(s.policy, p), Some(s.remote.next)}
    && s.remote.rows.Keys - t.remote.rows.Keys <= Ids(Id(s.policy, p))
    && (Id(t.policy, p) != Id(s.policy, p) ==> !s.remote.Live(Id(s.policy, p)) || !t.remote.Live(Id(s.policy, p)))
    && WellRecorded(t.policy, t.remote)
  }

  lemma ProtocolIsStep(c: Pass, i: Input, p: Protocol, s: Progress, t: Progress)
    requires WellRecorded(s.policy, s.remote) && t == AfterProtocol(c, i, p, s)
    ensures Step(p, s, t)
  {
  }

  /** Both steps: an error leaves at most one creation behind, and success names them all. */
  ghost predicate Sync(s: Progress, t: Progress) {
    && |Created(s.remote, t.remote)| <= 2
    && (t.err ==> |Created(s.remote, t.remote)| <= 1)
    && (!t.err ==> Created(s.remote, t.remote) <= RecordedIds(t.policy))
    && (forall id :: id in Created(s.remote, t.remote) ==> s.remote.next <= id)
    && s.remote.rows.Keys - t.remote.rows.Keys <= RecordedIds(s.policy)
    && (forall id :: id in RecordedIds(s.policy) && id in s.remote.rows && id in t.remote.rows ==>
          id in RecordedIds(t.policy))
    && t.policy == s.policy.(tcpId := t.policy.tcpId, udpId := t.policy.udpId)
    && s.remote.next <= t.remote.next && WellRecorded(t.policy, t.remote)
  }

  lemma PairCard(x: set<nat>, m: nat, n: nat)
    requires x <= {m, n}
    ensures |x| <= 2
    ensures m !in x || n !in x || m == n ==> |x| <= 1
  {
    assert x == (if m in x then {m} else {}) + (if n in x then {n} else {});
  }

  lemma CreatedCompose(p: Protocol, s: Progress, u: Progress, t: Progress)
    requires !s.err && Step(p, s, u) && Step(Other(p), u, t)
    ensures Created(s.remote, t.remote) <= Created(s.remote, u.remote) + Created(u.remote, t.remote)
    ensures |Created(s.remote, t.remote)| <= 2
    ensures t.err || Created(s.remote, u.remote) == {} || Created(u.remote, t.remote) == {} ==>
            |Created(s.remote, t.remote)| <= 1
    ensures forall id :: id in Created(s.remote, t.remote) ==> s.remote.next <= id
  {
    var a, b, both := Created(s.remote, u.remote), Created(u.remote, t.remote), Created(s.remote, t.remote);
    assert both <= a + b;
    PairCard(both, s.remote.next, u.remote.next);
    if b == {} {
      PairCard(both, s.remote.next, s.remote.next);
    }
    if a == {} {
      PairCard(both, u.remote.next, u.remote.next);
    }
  }

  lemma RecordedBoth(p: Protocol, q: Policy)
    ensures RecordedIds(q) == Ids(Id(q, p)) + Ids(Id(q, Other(p)))
  {
  }

  lemma NamedCompose(p: Protocol, s: Progress, u: Progress, t: Progress)
    requires !s.err && !t.err && Step(p, s, u) && Step(Other(p), u, t)
    ensures Created(s.remote, u.remote) + Created(u.remote, t.remote) <= RecordedIds(t.policy)
  {
    RecordedBoth(p, t.policy);
  }

  lemma KeptCompose(p: Protocol, s: Progress, u: Progress, t: Progress)
    requires WellRecorded(s.policy, s.remote) && !s.err && Step(p, s, u) && Step(Other(p), u, t)
    ensures s.remote.rows.Keys - t.remote.rows.Keys <= RecordedIds(s.policy)
    ensures forall id :: id in RecordedIds(s.policy) && id in s.remote.rows && id in t.remote.rows ==>
              id in RecordedIds(t.policy)
  {
    RecordedBoth(p, s.policy);
    RecordedBoth(p, t.policy);
    forall id | id in RecordedIds(s.policy) && id in s.remote.rows && id in t.remote.rows
      ensures id in RecordedIds(t.policy)
    {
      assert id in Created(u.remote, t.remote) ==> id == u.remote.next;
      assert id in u.remote.rows;
    }
  }

  lemma SyncCreates(c: Pass, i: Input, s: Progress, t: Progress)
    requires Runs(c) && t == AfterProtocols(c, i, 2, s) && !s.err && WellRecorded(s.policy, s.remote)
    ensures Sync(s, t)
  {
    var u := AfterProtocols(c, i, 1, s);
    assert u == AfterProtocol(c, i, c.order[0], AfterProtocols(c, i, 0, s));
    ProtocolIsStep(c, i, c.order[0], s, u);
    ProtocolIsStep(c, i, c.order[1], u, t);
    CreatedCompose(c.order[0], s, u, t);
    if !t.err {
      NamedCompose(c.order[0], s, u, t);
    }
    KeptCompose(c.order[0], s, u, t);
  }

  /** Outcome of a pass over an active policy in terms of its sync. */
  ghost predicate Outcomes(c: Pass, w: World, name: string, s: Progress, t: Progress, o: Outcome)
    requires name in w.policies
  {
    && (o.world == w || (o.err && o.world == w.(remote := t.remote))
        || (!o.err && !t.err && o.world == w.(remote := t.remote, policies := w.policies[name := t.policy])))
    && (!o.err ==> o.world != w || o.world == w.(remote := t.remote, policies := w.policies[name := t.policy]))
    && (o.err && WriteStatus !in c.down && o.world != w ==> t.err)
  }

  lemma PassOutcomes(c: Pass, w: World, name: string)
    requires Runs(c) && Active(w, name)
    ensures var s := Start(w, name);
            Outcomes(c, w, name, s, AfterProtocols(c, InputOf(w, name, w.policies[name]), 2, s), AfterPass(c, w, name))
  {
  }

  /** A pass without error leaks nothing; a failing one leaks what it created, at most one policy unless the
      failing call is the status write itself, and never more than two. */
  lemma PassLeaks(c: Pass, w: World, name: string)
    requires Runs(c) && Active(w, name)
    ensures var o := AfterPass(c, w, name);
            var leaked := Orphans(o.world, name) - Orphans(w, name);
            && (!o.err ==> leaked == {})
            && (o.err ==> leaked == Created(w.remote, o.world.remote) && |leaked| <= 2)
            && (WriteStatus !in c.down ==> |leaked| <= 1)
            && Active(o.world, name)
  {
    var o := AfterPass(c, w, name);
    var s := Start(w, name);
    var t := AfterProtocols(c, InputOf(w, name, w.policies[name]), 2, s);
    SyncCreates(c, InputOf(w, name, w.policies[name]), s, t);
    PassOutcomes(c, w, name);
    LeaksOf(c, w, name, s, t, o);
  }

  lemma NothingLeaks(before: set<nat>, after: set<nat>, recorded: set<nat>, recordedNow: set<nat>)
    requires after - before <= recordedNow
    requires forall id :: id in recorded && id in before && id in after ==> id in recordedNow
    ensures (after - recordedNow) - (before - recorded) == {}
  {
  }

  lemma CreationsLeak(before: set<nat>, after: set<nat>, recorded: set<nat>)
    requires recorded !! after - before
    ensures (after - recorded) - (before - recorded) == after - before
  {
  }

  lemma CreatedAreNew(s: Progress, t: Progress)
    requires Sync(s, t) && WellRecorded(s.policy, s.remote)
    ensures RecordedIds(s.policy) !! t.remote.rows.Keys - s.remote.rows.Keys
  {
    assert forall id :: id in RecordedIds(s.policy) ==> id < s.remote.next;
  }

  lemma SyncLeaks(s: Progress, t: Progress)
    requires Sync(s, t) && WellRecorded(s.policy, s.remote)
    ensures var before, after := s.remote.rows.Keys, t.remote.rows.Keys;
            && (!t.err ==> (after - RecordedIds(t.policy)) - (before - RecordedIds(s.policy)) == {})
            && (after - RecordedIds(s.policy)) - (before - RecordedIds(s.policy)) == Created(s.remote, t.remote)
  {
    var before, after := s.remote.rows.Keys, t.remote.rows.Keys;
    CreatedAreNew(s, t);
    CreationsLeak(before, after, RecordedIds(s.policy));
    if !t.err {
      NothingLeaks(before, after, RecordedIds(s.policy), RecordedIds(t.policy));
    }
  }

  lemma LeaksOf(c: Pass, w: World, name: string, s: Progress, t: Progress, o: Outcome)
    requires Active(w, name) && s == Start(w, name) && Sync(s, t) && Outcomes(c, w, name, s, t, o)
    ensures var leaked := Orphans(o.world, name) - Orphans(w, name);
            && (!o.err ==> leaked == {})
            && (o.err ==> leaked == Created(w.remote, o.world.remote) && |leaked| <= 2)
            && (WriteStatus !in c.down ==> |leaked| <= 1)
            && Active(o.world, name)
  {
    assert RecordedIds(s.policy) == RecordedIds(w.policies[name]) && s.remote == w.remote;
    SyncLeaks(s, t);
    if o.world == w {
      assert Created(w.remote, w.remote) == {} && Orphans(w, name) - Orphans(w, name) == {};
    }
  }

  predicate Creates(c: Pass, s: PolicySpec, id: Option<nat>, i: Input, p: Protocol) {
    Wanted(s, i, p) && id == None && CreateRemote(p) !in c.down
  }

  lemma CreatesNothing(c: Pass, i: Input, p: Protocol, s: Progress, t: Progress)
    requires t == AfterProtocol(c, i, p, s) && !Creates(c, s.policy.spec, Id(s.policy, p), i, p)
    ensures Created(s.remote, t.remote) == {}
  {
  }

  lemma CreatesOne(c: Pass, i: Input, p: Protocol, s: Progress, t: Progress)
    requires !s.err && t == AfterProtocol(c, i, p, s) && Creates(c, s.policy.spec, Id(s.policy, p), i, p)
    ensures t.remote.rows.Keys == s.remote.rows.Keys + {s.remote.next} && t.remote.next == s.remote.next + 1 && !t.err
  {
  }

  lemma CreationsAddUp(p: Protocol, s: Progress, u: Progress, t: Progress, a: bool, b: bool)
    requires !s.err && WellRecorded(s.policy, s.remote) && Step(p, s, u) && Step(Other(p), u, t)
    requires if a then u.remote.rows.Keys == s.remote.rows.Keys + {s.remote.next} && u.remote.next == s.remote.next + 1
             else Created(s.remote, u.remote) == {}
    requires a && b ==> t.remote.rows.Keys == u.remote.rows.Keys + {u.remote.next} && !t.err
    requires !b ==> Created(u.remote, t.remote) == {}
    ensures |Created(s.remote, t.remote)| == 2 <==> a && b
  {
    if a && b {
      TwoMore(s.remote.rows.Keys, s.remote.next);
    } else {
      CreatedCompose(p, s, u, t);
    }
  }

  lemma TwoMore(rows: set<nat>, n: nat)
    requires forall id :: id in rows ==> id < n
    ensures |rows + {n} + {n + 1} - rows| == 2
  {
    assert rows + {n} + {n + 1} - rows == {n, n + 1};
  }

  lemma SyncCreatesTwo(c: Pass, i: Input, s: Progress, t: Progress)
    requires Runs(c) && t == AfterProtocols(c, i, 2, s) && !s.err && WellRecorded(s.policy, s.remote)
    ensures |Created(s.remote, t.remote)| == 2 <==>
            Creates(c, s.policy.spec, s.policy.tcpId, i, Tcp) && Creates(c, s.policy.spec, s.policy.udpId, i, Udp)
  {
    var p, q := c.order[0], c.order[1];
    var u := AfterProtocols(c, i, 1, s);
    assert u == AfterProtocol(c, i, p, AfterProtocols(c, i, 0, s));
    ProtocolIsStep(c, i, p, s, u);
    ProtocolIsStep(c, i, q, u, t);
    var a, b := Creates(c, s.policy.spec, Id(s.policy, p), i, p), Creates(c, s.policy.spec, Id(s.policy, q), i, q);
    if a {
      CreatesOne(c, i, p, s, u);
      if b {
        CreatesOne(c, i, q, u, t);
      }
    } else {
      CreatesNothing(c, i, p, s, u);
    }
    if !b {
      CreatesNothing(c, i, q, u, t);
    }
    CreationsAddUp(p, s, u, t, a, b);
  }

  ghost predicate ReadsWork(c: Pass, p: Policy) {
    && GetPolicy !in c.down && ListDestinations !in c.down && ListSources !in c.down
    && forall k :: k in p.managed ==> GetResource(k) !in c.down
  }

  /** Exactly when two policies leak: both protocols are wanted and unrecorded, both creations succeed, and
      the status write that should have named them fails. */
  lemma TwoLeakExactlyWhen(c: Pass, w: World, name: string)
    requires Runs(c) && Active(w, name)
    ensures var o := AfterPass(c, w, name);
            var p := w.policies[name];
            var i := InputOf(w, name, p);
            |Orphans(o.world, name) - Orphans(w, name)| == 2 <==>
              && ReadsWork(c, p) && WriteStatus in c.down
              && Creates(c, p.spec, p.tcpId, i, Tcp) && Creates(c, p.spec, p.udpId, i, Udp)
  {
    var i := InputOf(w, name, w.policies[name]);
    var s := Start(w, name);
    var t := AfterProtocols(c, i, 2, s);
    PassLeaks(c, w, name);
    SyncCreates(c, i, s, t);
    SyncCreatesTwo(c, i, s, t);
    PassCases(c, w, name, t);
  }

  lemma PassCases(c: Pass, w: World, name: string, t: Progress)
    requires Runs(c) && Active(w, name)
    requires t == AfterProtocols(c, InputOf(w, name, w.policies[name]), 2, Start(w, name))
    ensures var o := AfterPass(c, w, name);
            && (!ReadsWork(c, w.policies[name]) ==> o.world == w)
            && (ReadsWork(c, w.policies[name]) ==>
                  o.world.remote == t.remote && (o.err <==> t.err || WriteStatus in c.down))
  {
  }

  // ----- deletion -----

  lemma DeletesOne(c: Pass, p: Protocol, s: Progress)
    ensures var t := AfterDeleteOne(c, p, s);
            && s.remote.rows.Keys - Ids(Id(s.policy, p)) <= t.remote.rows.Keys <= s.remote.rows.Keys
            && (!t.err ==> !s.err && Ids(Id(s.policy, p)) !! t.remote.rows.Keys)
            && (t.policy == s.policy || t.policy == WithId(s.policy, p, None))
  {
  }

  /** The finalizer is only given up once no recorded remote policy is left. */
  lemma DeletionIsSafe(c: Pass, w: World, name: string)
    requires Runs(c) && name in w.policies && w.policies[name].deleting
    requires CLEANUP in w.policies[name].finalizers
    ensures var o := AfterPass(c, w, name);
            name !in o.world.policies || CLEANUP !in o.world.policies[name].finalizers ==>
            RecordedIds(w.policies[name]) !! o.world.remote.rows.Keys
    ensures var o := AfterPass(c, w, name);
            w.remote.rows.Keys - RecordedIds(w.policies[name]) <= o.world.remote.rows.Keys <= w.remote.rows.Keys
  {
    if GetPolicy !in c.down {
      var s := Progress(w.policies[name], w.remote, false, false);
      DeletesOne(c, Tcp, s);
      DeletesOne(c, Udp, AfterDeleteOne(c, Tcp, s));
      DeleteEnds(c, w, name);
    }
  }

  lemma DeleteEnds(c: Pass, w: World, name: string)
    requires name in w.policies && CLEANUP in w.policies[name].finalizers
    ensures var s := AfterDeleteOne(c, Udp, AfterDeleteOne(c, Tcp, Progress(w.policies[name], w.remote, false, false)));
            var o := AfterDelete(c, w, name);
            && o.world.remote == s.remote
            && (s.err ==> o.world.policies == w.policies)
  {
  }

  lemma SwappedContains(missing: string)
    requires Recognized(missing)
    ensures RecognizedByDelete(missing) <==> missing == "not found"
  {
    var i: nat :| i <= |missing| && OccursAt(missing, "not found", i);
    if RecognizedByDelete(missing) {
      var j: nat :| j <= |"not found"| && OccursAt("not found", missing, j);
      assert |missing| == |"not found"|;
      assert missing[0..|missing|] == missing;
    }
    assert missing == "not found" ==> "not found"[0..|missing|] == missing;
    assert missing == "not found" ==> OccursAt("not found", missing, 0);
  }

  // ----- the requeue flag -----

  /** The request to run again after a vanished policy is lost exactly when the protocol handled next
      updates a live one. */
  lemma RequeueOverwritten(c: Pass, i: Input, s: Progress)
    requires Clean(c) && !s.err && WellRecorded(s.policy, s.remote)
    requires Wanted(s.policy.spec, i, c.order[0])
    requires Id(s.policy, c.order[0]).Some? && !s.remote.Live(Id(s.policy, c.order[0]))
    ensures var t := AfterProtocols(c, i, 2, s);
            && !t.err && Id(t.policy, c.order[0]) == None
            && (!t.requeue <==> Wanted(s.policy.spec, i, c.order[1]) && s.remote.Live(Id(s.policy, c.order[1])))
  {
    var u := AfterProtocols(c, i, 1, s);
    assert u == AfterProtocol(c, i, c.order[0], AfterProtocols(c, i, 0, s));
  }
}
