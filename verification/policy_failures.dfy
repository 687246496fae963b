// Exactly when an OZPolicy pass errs or asks to run again, and what a deletion records, in terms of the failing calls.
module PolicyFailures {
  import opened Finalizers
  import opened PolicyLeaks
  import opened PolicyObjects
  import opened PolicySettling
  import opened PolicySync
  import opened Slices
  import opened Tables

  /** The protocol is allowed and the merged input has ports, sources and destinations. */
  ghost predicate Asks(p: Policy, i: Input, proto: Protocol) {
    && (p.spec.protocols == [] || proto in p.spec.protocols)
    && i.sources != [] && i.destinations != [] && (if proto == Tcp then i.tcp else i.udp) != []
  }

  ghost function Known(p: Policy, proto: Protocol): Option<nat> {
    if proto == Tcp then p.tcpId else p.udpId
  }

  /** The recorded remote policy is gone, and the server's answer is not one the pass understands. */
  ghost predicate Lost(c: Pass, id: Option<nat>, remote: Table<RemotePolicy>) {
    !remote.Live(id) && !Contains(c.missing, "not found")
  }

  /** The call the protocol needs fails. */
  ghost predicate Trouble(c: Pass, p: Policy, i: Input, proto: Protocol, remote: Table<RemotePolicy>) {
    var id := Known(p, proto);
    if !Asks(p, i, proto) then id.Some? && (DeleteRemote(proto) in c.down || Lost(c, id, remote))
    else if id == None then CreateRemote(proto) in c.down
    else UpdateRemote(proto) in c.down || Lost(c, id, remote)
  }

  /** The pass finds out that the remote policy to update is gone. */
  ghost predicate Gone(c: Pass, p: Policy, i: Input, proto: Protocol, remote: Table<RemotePolicy>) {
    && Asks(p, i, proto) && Known(p, proto).Some? && !remote.Live(Known(p, proto))
    && UpdateRemote(proto) !in c.down && Contains(c.missing, "not found")
  }

  lemma StepFailsExactlyWhen(c: Pass, i: Input, p: Protocol, s: Progress)
    requires !s.err
    ensures AfterProtocol(c, i, p, s).err <==> Trouble(c, s.policy, i, p, s.remote)
    ensures AfterProtocol(c, i, p, s).requeue <==>
            Gone(c, s.policy, i, p, s.remote) || (s.requeue && !(Asks(s.policy, i, p) && Known(s.policy, p).Some?))
  {
  }

  /** A step for one protocol leaves what decides the other one. */
  lemma OtherUntouched(c: Pass, i: Input, p: Protocol, s: Progress)
    requires WellRecorded(s.policy, s.remote)
    ensures var t := AfterProtocol(c, i, p, s);
            && t.policy.spec == s.policy.spec && Known(t.policy, Other(p)) == Known(s.policy, Other(p))
            && (Known(s.policy, Other(p)).Some? ==>
                  (t.remote.Live(Known(s.policy, Other(p))) <==> s.remote.Live(Known(s.policy, Other(p)))))
  {
  }

  /** Whatever the order, a sync errs exactly when either protocol is in trouble, judged by the state before it; and
      it asks to run again exactly when it finds the second policy gone, or the first and attempts no update after. */
  lemma SyncFailsExactlyWhen(c: Pass, i: Input, s: Progress)
    requires Runs(c) && !s.err && !s.requeue && WellRecorded(s.policy, s.remote)
    ensures var t := AfterProtocols(c, i, 2, s);
            var p, q := c.order[0], c.order[1];
            && (t.err <==> Trouble(c, s.policy, i, Tcp, s.remote) || Trouble(c, s.policy, i, Udp, s.remote))
            && (t.requeue <==>
                  || (Gone(c, s.policy, i, q, s.remote) && !Trouble(c, s.policy, i, p, s.remote))
                  || (Gone(c, s.policy, i, p, s.remote) && !(Asks(s.policy, i, q) && Known(s.policy, q).Some?)))
  {
    var p, q := c.order[0], c.order[1];
    var u := AfterProtocols(c, i, 1, s);
    assert u == AfterProtocol(c, i, p, AfterProtocols(c, i, 0, s));
    StepFailsExactlyWhen(c, i, p, s);
    OtherUntouched(c, i, p, s);
    if !u.err {
      StepFailsExactlyWhen(c, i, q, u);
      assert q == Other(p);
      assert Trouble(c, u.policy, i, q, u.remote) <==> Trouble(c, s.policy, i, q, s.remote);
    }
  }

  /** A pass over a live policy errs exactly when a read fails, a protocol is in trouble, or the status write fails. */
  lemma PassFailsExactlyWhen(c: Pass, w: World, name: string)
    requires Runs(c) && Active(w, name)
    ensures var p := w.policies[name];
            var i := InputOf(w, name, p);
            AfterPass(c, w, name).err <==>
            || GetPolicy in c.down || ListDestinations in c.down || ListSources in c.down || WriteStatus in c.down
            || (exists k :: k in p.managed && GetResource(k) in c.down)
            || Trouble(c, p, i, Tcp, w.remote) || Trouble(c, p, i, Udp, w.remote)
  {
    var p := w.policies[name];
    var i := InputOf(w, name, p);
    var s := Start(w, name);
    SyncFailsExactlyWhen(c, i, s);
    PassErr(c, w, name, AfterProtocols(c, i, 2, s));
    StartTrouble(c, w, name, i, Tcp);
    StartTrouble(c, w, name, i, Udp);
  }

  lemma PassErr(c: Pass, w: World, name: string, t: Progress)
    requires Runs(c) && Active(w, name)
    requires t == AfterProtocols(c, InputOf(w, name, w.policies[name]), 2, Start(w, name))
    ensures AfterPass(c, w, name).err <==> !ReadsWork(c, w.policies[name]) || t.err || WriteStatus in c.down
  {
  }

  lemma StartTrouble(c: Pass, w: World, name: string, i: Input, proto: Protocol)
    requires name in w.policies
    ensures Trouble(c, Start(w, name).policy, i, proto, Start(w, name).remote)
       <==> Trouble(c, w.policies[name], i, proto, w.remote)
  {
  }

  // ----- deletion -----

  /** The deletion of the protocol's recorded remote policy fails, or its answer is no part of "not found". */
  ghost predicate Undeletable(c: Pass, p: Policy, proto: Protocol, remote: Table<RemotePolicy>) {
    var id := Known(p, proto);
    id.Some? && (DeleteRemote(proto) in c.down || (!remote.Live(id) && !Contains("not found", c.missing)))
  }

  /** A deletion pass errs exactly when one of its calls does. The object that stays for other finalizers has lost its
      IDs only if it did not carry this operator's finalizer: the update reads the stored IDs back. */
  lemma DeletionFailsExactlyWhen(c: Pass, w: World, name: string)
    requires Runs(c) && name in w.policies && w.policies[name].deleting && w.policies[name].finalizers != []
    requires WellRecorded(w.policies[name], w.remote)
    ensures var p, o := w.policies[name], AfterPass(c, w, name);
            && (o.err <==>
                  || GetPolicy in c.down || Undeletable(c, p, Tcp, w.remote) || Undeletable(c, p, Udp, w.remote)
                  || (CLEANUP in p.finalizers && UpdateObject in c.down)
                  || ((exists f :: f in p.finalizers && f != CLEANUP) && WriteStatus in c.down))
            && (!o.err && name in o.world.policies ==>
                  var q := o.world.policies[name];
                  q == p.(finalizers := q.finalizers,
                          tcpId := if CLEANUP in p.finalizers then p.tcpId else None,
                          udpId := if CLEANUP in p.finalizers then p.udpId else None))
  {
    var p := w.policies[name];
    var s := Progress(p, w.remote, false, false);
    var t := AfterDeleteOne(c, Tcp, s);
    OneFailsExactlyWhen(c, Tcp, s);
    if !t.err {
      OneFailsExactlyWhen(c, Udp, t);
      assert Undeletable(c, t.policy, Udp, t.remote) <==> Undeletable(c, p, Udp, w.remote);
    }
    OthersRemain(p.finalizers);
  }

  lemma OneFailsExactlyWhen(c: Pass, p: Protocol, s: Progress)
    requires !s.err
    ensures AfterDeleteOne(c, p, s).err <==> Undeletable(c, s.policy, p, s.remote)
    ensures !AfterDeleteOne(c, p, s).err ==> AfterDeleteOne(c, p, s).policy == WithId(s.policy, p, None)
  {
  }

  lemma OthersRemain(finalizers: seq<string>)
    ensures Drop(finalizers, {CLEANUP}) != [] <==> exists f :: f in finalizers && f != CLEANUP
  {
    var rest := Drop(finalizers, {CLEANUP});
    forall f ensures f in rest <==> f in finalizers && f !in {CLEANUP} {
      DropMembers(finalizers, {CLEANUP}, f);
    }
    assert rest != [] ==> rest[0] in rest;
  }
}
