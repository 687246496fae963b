// Whole runs of OZPolicy passes, with everybody else acting in between: what they may leak, and deletions that
// never complete.
module PolicyRuns {
  import opened Finalizers
  import opened PolicyLeaks
  import opened PolicyObjects
  import opened PolicySettling
  import opened PolicySync
  import opened Slices
  import opened Tables

  datatype Step = Outside | Run(pass: Pass)

  // ----- leaks -----

  /** The policy object, when there is one, records IDs the server handed out. */
  ghost predicate Sound(w: World, name: string) {
    name in w.policies ==> WellRecorded(w.policies[name], w.remote)
  }

  /** Everybody else may do what they like to objects and server, but nobody else writes the recorded IDs; an
      object that comes new records none. */
  ghost predicate Outer(w: World, v: World, name: string) {
    && v.remote.next >= w.remote.next
    && (name in w.policies && name in v.policies ==>
          v.policies[name].tcpId == w.policies[name].tcpId && v.policies[name].udpId == w.policies[name].udpId)
    && (name !in w.policies && name in v.policies ==>
          v.policies[name].tcpId == None && v.policies[name].udpId == None)
  }

  /** Remote policies others made in a step, or whose object went without a deletion pass. */
  ghost function OuterRows(w: World, v: World, name: string): set<nat> {
    Created(w.remote, v.remote)
    + if name in w.policies && name !in v.policies then RecordedIds(w.policies[name]) else {}
  }

  ghost predicate Follows(step: Step, w: World, v: World, name: string) {
    match step
    case Outside => Outer(w, v, name)
    case Run(c) => Runs(c) && v == AfterPass(c, w, name).world
  }

  ghost predicate Trace(steps: seq<Step>, ws: seq<World>, name: string) {
    |ws| == |steps| + 1 && forall i :: 0 <= i < |steps| ==> Follows(steps[i], ws[i], ws[i + 1], name)
  }

  ghost function NotOurs(steps: seq<Step>, ws: seq<World>, name: string): set<nat>
    requires |ws| == |steps| + 1
  {
    if steps == [] then {}
    else
      var n := |steps| - 1;
      NotOurs(steps[..n], ws[..n + 1], name) + if steps[n].Outside? then OuterRows(ws[n], ws[n + 1], name) else {}
  }

  ghost predicate Errs(step: Step, w: World, name: string) {
    step.Run? && Runs(step.pass) && AfterPass(step.pass, w, name).err
  }

  /** What a step may leak: two remote policies if it failed with its status write failing, one if it failed
      otherwise. */
  ghost function Weight(step: Step, w: World, name: string): nat {
    if !Errs(step, w, name) then 0 else if WriteStatus in step.pass.down then 2 else 1
  }

  ghost function Allowance(steps: seq<Step>, ws: seq<World>, name: string): nat
    requires |ws| == |steps| + 1
  {
    if steps == [] then 0
    else
      var n := |steps| - 1;
      Allowance(steps[..n], ws[..n + 1], name) + Weight(steps[n], ws[n], name)
  }

  /** A deletion pass leaks nothing, whatever fails. */
  lemma DeletionLeaksNothing(c: Pass, w: World, name: string)
    requires Runs(c) && name in w.policies && w.policies[name].deleting && WellRecorded(w.policies[name], w.remote)
    ensures var o := AfterPass(c, w, name);
            Orphans(o.world, name) <= Orphans(w, name) && Sound(o.world, name)
  {
    var p := w.policies[name];
    if GetPolicy !in c.down && p.finalizers != [] {
      var s := Progress(p, w.remote, false, false);
      var u := AfterDeleteOne(c, Tcp, s);
      var t := AfterDeleteOne(c, Udp, u);
      DeletesOne(c, Tcp, s);
      DeletesOne(c, Udp, u);
      DeleteShape(c, w, name, t);
      RecordedBoth(Tcp, p);
    }
  }

  /** What a deletion pass leaves, t being its progress through the server calls. */
  lemma DeleteShape(c: Pass, w: World, name: string, t: Progress)
    requires name in w.policies && w.policies[name].finalizers != []
    requires t == AfterDeleteOne(c, Udp, AfterDeleteOne(c, Tcp, Progress(w.policies[name], w.remote, false, false)))
    ensures var v := AfterDelete(c, w, name).world;
            && v.remote == t.remote && t.remote.next == w.remote.next
            && (name !in v.policies ==> !t.err)
            && (name in v.policies ==>
                  || RecordedIds(v.policies[name]) == RecordedIds(w.policies[name])
                  || (!t.err && v.policies[name].tcpId == None && v.policies[name].udpId == None))
            && (name in v.policies && WellRecorded(w.policies[name], w.remote) ==>
                  WellRecorded(v.policies[name], v.remote))
  {
  }

  lemma StepLeaks(step: Step, w: World, v: World, name: string)
    requires Sound(w, name) && Follows(step, w, v, name)
    ensures var more := Orphans(v, name) - Orphans(w, name);
            && Sound(v, name)
            && if step.Outside? then more <= OuterRows(w, v, name) else |more| <= Weight(step, w, name)
  {
    var more := Orphans(v, name) - Orphans(w, name);
    if step.Run? && name in w.policies {
      if w.policies[name].deleting {
        DeletionLeaksNothing(step.pass, w, name);
        assert more == {};
      } else {
        PassLeaks(step.pass, w, name);
        assert more == {} ==> |more| == 0;
      }
    } else if step.Run? {
      assert more == {};
    }
  }

  lemma LeftGrows(step: Step, w: World, v: World, name: string, theirs: set<nat>)
    requires Sound(w, name) && Follows(step, w, v, name)
    ensures Sound(v, name)
    ensures var now := theirs + if step.Outside? then OuterRows(w, v, name) else {};
            |Orphans(v, name) - now| <= |Orphans(w, name) - theirs| + Weight(step, w, name)
  {
    StepLeaks(step, w, v, name);
    if step.Outside? {
      CardSubset(Orphans(v, name) - (theirs + OuterRows(w, v, name)), Orphans(w, name) - theirs);
    } else {
      assert theirs + {} == theirs;
      CardUnion(Orphans(w, name) - theirs, Orphans(v, name) - Orphans(w, name), Orphans(v, name) - theirs);
    }
  }

  /** Over every run of passes, deletion passes included, with everybody else acting in between, the unnamed
      remote policies that are neither others' nor there from the start are at most one per failed pass, two
      if its status write failed. */
  lemma {:induction false} RunLeaks(steps: seq<Step>, ws: seq<World>, name: string)
    requires Trace(steps, ws, name) && Sound(ws[0], name)
    ensures Sound(ws[|steps|], name)
    ensures |Orphans(ws[|steps|], name) - NotOurs(steps, ws, name)|
         <= |Orphans(ws[0], name)| + Allowance(steps, ws, name)
  {
    if steps == [] {
      CardSubset(Orphans(ws[0], name) - NotOurs(steps, ws, name), Orphans(ws[0], name));
    } else {
      var n := |steps| - 1;
      RunLeaks(steps[..n], ws[..n + 1], name);
      assert Follows(steps[n], ws[n], ws[n + 1], name);
      LeftGrows(steps[n], ws[n], ws[n + 1], name, NotOurs(steps[..n], ws[..n + 1], name));
    }
  }

  // ----- retried deletions -----

  /** A recorded remote policy has already vanished. */
  ghost predicate Vanished(w: World, name: string)
    requires name in w.policies
  {
    exists p :: Id(w.policies[name], p).Some? && !w.remote.Live(Id(w.policies[name], p))
  }

  ghost predicate Dying(w: World, name: string) {
    && name in w.policies && w.policies[name].deleting && CLEANUP in w.policies[name].finalizers
    && WellRecorded(w.policies[name], w.remote)
  }

  lemma FinalizersAfter(c: Pass, w: World, name: string)
    requires Dying(w, name) && Runs(c) && GetPolicy !in c.down
    ensures var o := AfterPass(c, w, name);
            && (!o.err && name in o.world.policies ==>
                  forall f :: f in o.world.policies[name].finalizers <==>
                              f in w.policies[name].finalizers && f != "openzro.io/cleanup")
            && (!o.err && name !in o.world.policies ==>
                  forall f :: f in w.policies[name].finalizers ==> f == "openzro.io/cleanup")
  {
    assert CLEANUP == "openzro.io/cleanup";
    var rest := Drop(w.policies[name].finalizers, {CLEANUP});
    forall f ensures f in rest <==> f in w.policies[name].finalizers && f != CLEANUP {
      DropMembers(w.policies[name].finalizers, {CLEANUP}, f);
    }
    DeleteFinalizers(c, w, name);
  }

  lemma DeleteFinalizers(c: Pass, w: World, name: string)
    requires name in w.policies && CLEANUP in w.policies[name].finalizers
    ensures var o := AfterDelete(c, w, name);
            var rest := Drop(w.policies[name].finalizers, {CLEANUP});
            !o.err ==> if rest == [] then name !in o.world.policies
                       else name in o.world.policies && o.world.policies[name].finalizers == rest
  {
  }

  /** With every call succeeding, deletion fails exactly when a recorded remote policy has already vanished and
      the server's message is not exactly "not found"; then the object stays as it is. */
  lemma DeletionProgress(c: Pass, w: World, name: string)
    requires Clean(c) && Dying(w, name)
    ensures var o := AfterPass(c, w, name);
            && (o.err <==> Vanished(w, name) && c.missing != "not found")
            && (o.err ==> o.world.policies == w.policies)
            && (!o.err && name in o.world.policies ==>
                  forall f :: f in o.world.policies[name].finalizers <==>
                              f in w.policies[name].finalizers && f != "openzro.io/cleanup")
            && (!o.err && name !in o.world.policies ==>
                  forall f :: f in w.policies[name].finalizers ==> f == "openzro.io/cleanup")
  {
    FinalizersAfter(c, w, name);
    SwappedContains(c.missing);
    var p := w.policies[name];
    assert Vanished(w, name) <==>
      (p.tcpId.Some? && !w.remote.Live(p.tcpId)) || (p.udpId.Some? && !w.remote.Live(p.udpId)) by {
      assert Id(p, Tcp) == p.tcpId && Id(p, Udp) == p.udpId;
    }
  }

  /** Between retries the object stays as it is, and no ID comes back. */
  ghost predicate Waits(w: World, v: World, name: string)
    requires name in w.policies
  {
    && name in v.policies && v.policies[name] == w.policies[name] && v.remote.next >= w.remote.next
    && forall id :: id in v.remote.rows && id < w.remote.next ==> id in w.remote.rows
  }

  lemma VanishedStays(w: World, v: World, name: string)
    requires Dying(w, name) && Vanished(w, name) && Waits(w, v, name)
    ensures Dying(v, name) && Vanished(v, name)
  {
    var p :| Id(w.policies[name], p).Some? && !w.remote.Live(Id(w.policies[name], p));
    assert Id(v.policies[name], p).Some? && !v.remote.Live(Id(v.policies[name], p));
  }

  lemma RetryWaits(c: Pass, w: World, name: string)
    requires Clean(c) && c.missing != "not found" && Dying(w, name) && Vanished(w, name)
    ensures AfterPass(c, w, name).err && Waits(w, AfterPass(c, w, name).world, name)
  {
    DeletionProgress(c, w, name);
    var s := Progress(w.policies[name], w.remote, false, false);
    DeletesOne(c, Tcp, s);
    DeletesOne(c, Udp, AfterDeleteOne(c, Tcp, s));
    DeleteEnds(c, w, name);
  }

  /** A clean retry, or others meanwhile. */
  ghost predicate Retries(step: Step, w: World, v: World, name: string) {
    match step
    case Outside => name in w.policies && Waits(w, v, name)
    case Run(c) => Clean(c) && c.missing != "not found" && v == AfterPass(c, w, name).world
  }

  /** Then it never completes, however often it is retried with every call succeeding, and whatever others do
      to the rest of the world in between. */
  lemma {:induction false} DeletionStuck(steps: seq<Step>, ws: seq<World>, name: string)
    requires |ws| == |steps| + 1 && Dying(ws[0], name) && Vanished(ws[0], name)
    requires forall i :: 0 <= i < |steps| ==> Retries(steps[i], ws[i], ws[i + 1], name)
    ensures Dying(ws[|steps|], name) && Vanished(ws[|steps|], name)
    ensures ws[|steps|].policies[name] == ws[0].policies[name]
    ensures forall c :: Clean(c) && c.missing != "not found" ==> AfterPass(c, ws[|steps|], name).err
  {
    if steps != [] {
      var n := |steps| - 1;
      DeletionStuck(steps[..n], ws[..n + 1], name);
      assert Retries(steps[n], ws[n], ws[n + 1], name);
      if steps[n].Run? {
        RetryWaits(steps[n].pass, ws[n], name);
      }
      VanishedStays(ws[n], ws[n + 1], name);
    }
    forall c | Clean(c) && c.missing != "not found" ensures AfterPass(c, ws[|steps|], name).err {
      DeletionProgress(c, ws[|steps|], name);
    }
  }
}
