// End to end: whatever resource passes, policy passes and user edits happen in whatever order, the policy
// controller ends up implementing "the union over the live resources that name the policy".
module PolicyRefinement {
  import opened KeyNames
  import opened PolicyLeaks
  import opened PolicyMeaning
  import opened PolicyObjects
  import opened PolicySettling
  import opened PolicySync
  import opened PolicyWithdrawal
  import opened RegistrationDiff
  import opened Slices
  import opened Tables
  import Registration

  // ----- everything that may happen to the shared world -----

  /** One OZResource pass that reached handlePolicy, and whether its final status write failed. */
  datatype Visit = Visit(pass: Registration.Pass, writeFails: bool)

  /** Passes of the two controllers with whatever calls failing, and what users and the cluster do. */
  datatype Event =
    | Register(visit: Visit)
    | Withdraw(gone: Key, down: set<Registration.Call>)
    | Merge(pass: Pass, policy: string)
    | Edit(edited: Key, spec: ResourceSpec)
    | Mark(marked: Key)
    | Vanish(vanished: Key)

  const NEW_STATUS := ResourceStatus(None, [], [], [], [], map[], map[])

  ghost predicate Applies(w: World, v: Visit) {
    v.pass.key in w.resources && !w.resources[v.pass.key].deleting && v.pass.spec == w.resources[v.pass.key].spec
  }

  function After(w: World, v: Visit): Registration.State
    requires v.pass.key in w.resources
  {
    Registration.AfterPolicy(v.pass, Registration.State(w.policies, w.resources[v.pass.key].status, false))
  }

  ghost predicate Succeeds(w: World, v: Visit) {
    Applies(w, v) && !v.writeFails && !After(w, v).err
  }

  ghost function Visited(w: World, v: Visit): World {
    if !Applies(w, v) then w
    else
      var t := After(w, v);
      var k := v.pass.key;
      if t.err || v.writeFails then w.(policies := t.policies)
      else w.(policies := t.policies, resources := w.resources[k := w.resources[k].(status := t.status)])
  }

  function Edited(w: World, k: Key, spec: ResourceSpec): World {
    var r := if k in w.resources then w.resources[k].(spec := spec) else Resource(spec, NEW_STATUS, false);
    w.(resources := w.resources[k := r])
  }

  function WithdrawnFrom(w: World, k: Key, down: set<Registration.Call>): World {
    if k !in w.resources || !w.resources[k].deleting then w
    else
      var list := Registration.StatusList(w.resources[k].status);
      w.(policies := AfterWithdrawals(k, list, down, |list|, Withdrawing(w.policies, false)).policies)
  }

  ghost function Next(w: World, e: Event): World
    requires e.Merge? ==> Runs(e.pass)
  {
    match e
    case Register(v) => Visited(w, v)
    case Withdraw(k, down) => WithdrawnFrom(w, k, down)
    case Merge(c, policy) => AfterPass(c, w, policy).world
    case Edit(k, spec) => Edited(w, k, spec)
    case Mark(k) => if k in w.resources then w.(resources := w.resources[k := w.resources[k].(deleting := true)]) else w
    case Vanish(k) => w.(resources := w.resources - {k})
  }

  /** Specs that do not generate a policy under the very name of the policy at hand. */
  ghost predicate Possible(e: Event, name: string) {
    && (e.Merge? ==> Runs(e.pass))
    && (e.Edit? ==> forall p :: p in Names(e.spec.policyName, ',') ==> GeneratedName(p, e.edited) != name)
  }

  ghost function Run(w: World, events: seq<Event>, name: string): World
    requires forall i :: 0 <= i < |events| ==> Possible(events[i], name)
  {
    if events == [] then w
    else
      assert Possible(events[|events| - 1], name);
      Next(Run(w, events[..|events| - 1], name), events[|events| - 1])
  }

  /** Nobody treats `name` as a policy generated for a resource. */
  ghost predicate ByHand(w: World, name: string) {
    && name in w.policies && !w.policies[name].deleting && w.policies[name].generatedBy == ""
    && forall k :: k in w.resources ==> Foreign(k, w.resources[k], name)
  }

  ghost predicate Foreign(k: Key, r: Resource, name: string) {
    && name !in r.status.mapping && name !in r.status.mapping.Values
    && forall p :: p in Names(r.spec.policyName, ',') ==> GeneratedName(p, k) != name
  }

  /** The resource's status and the policy's managed list agree with the resource's spec. */
  ghost predicate Registered(w: World, k: Key, name: string)
    requires k in w.resources && name in w.policies
  {
    var r := w.resources[k];
    && (r.status.policyName == Some(r.spec.policyName) || (r.status.policyName == None && r.spec.policyName == ""))
    && (name in Names(r.spec.policyName, ',') ==> k in w.policies[name].managed)
  }

  ghost predicate Living(w: World, k: Key) {
    k in w.resources && !w.resources[k].deleting
  }

  /** What every event but an edit of k keeps, about the policy and about registration. */
  ghost predicate Keeps(w: World, u: World, name: string, edited: set<Key>) {
    && ByHand(w, name) && ByHand(u, name) && u.groups == w.groups
    && u.policies[name].spec == w.policies[name].spec
    && (WellRecorded(w.policies[name], w.remote) ==> WellRecorded(u.policies[name], u.remote))
    && (forall k :: Living(u, k) && k !in edited ==> Living(w, k))
    && (forall k :: Living(u, k) && k !in edited && Registered(w, k, name) ==> Registered(u, k, name))
  }

  /** What a resource pass does to the policy at hand and to its own resource. */
  ghost predicate VisitFacts(w: World, u: World, k: Key, name: string)
    requires name in w.policies && k in w.resources
  {
    && name in u.policies && k in u.resources && u.remote == w.remote && u.groups == w.groups
    && ManagedMoves(k, w.policies[name], u.policies[name])
    && u.resources == w.resources[k := w.resources[k].(status := u.resources[k].status)]
    && Foreign(k, u.resources[k], name)
    && (Registered(w, k, name) ==> Registered(u, k, name))
  }

  /** What handlePolicy leaves of a hand-written policy, and which list the status records then. */
  ghost predicate Handled(k: Key, listed: seq<string>, spec: string,
                          s: Registration.State, t: Registration.State, name: string)
    requires name in s.policies
  {
    && name in t.policies && name !in t.status.mapping && name !in t.status.mapping.Values
    && ManagedMoves(k, s.policies[name], t.policies[name])
    && (name in listed && (k in s.policies[name].managed || !t.err) ==> k in t.policies[name].managed)
    && (!t.err ==> t.status.policyName == Some(spec) || (t.status.policyName == None && spec == ""))
  }

  lemma PolicyHandled(c: Registration.Pass, s: Registration.State, name: string)
    requires !s.err && name in s.policies && HandWritten(c, Names(c.spec.policyName, ','), s.status, name)
    ensures Handled(c.key, Names(c.spec.policyName, ','), c.spec.policyName, s, Registration.AfterPolicy(c, s), name)
  {
    HandPolicy(c, s, Registration.AfterPolicy(c, s), name);
    PolicyNameRecorded(c, s);
  }

  lemma VisitMoves(w: World, v: Visit, name: string)
    requires ByHand(w, name) && Applies(w, v)
    ensures VisitFacts(w, Visited(w, v), v.pass.key, name)
    ensures Succeeds(w, v) ==> Registered(Visited(w, v), v.pass.key, name)
  {
    var k := v.pass.key;
    assert Foreign(k, w.resources[k], name);
    var s := Registration.State(w.policies, w.resources[k].status, false);
    PolicyHandled(v.pass, s, name);
    HandledMoves(w, k, s, After(w, v), v.writeFails, name);
  }

  lemma HandledMoves(w: World, k: Key, s: Registration.State, t: Registration.State, writeFails: bool, name: string)
    requires name in w.policies && k in w.resources && Foreign(k, w.resources[k], name)
    requires s.policies == w.policies && s.status == w.resources[k].status
    requires Handled(k, Names(w.resources[k].spec.policyName, ','), w.resources[k].spec.policyName, s, t, name)
    ensures var u := if t.err || writeFails then w.(policies := t.policies)
                     else w.(policies := t.policies,
                             resources := w.resources[k := w.resources[k].(status := t.status)]);
            VisitFacts(w, u, k, name) && (!t.err && !writeFails ==> Registered(u, k, name))
  {
  }

  lemma FactsKeep(w: World, u: World, k: Key, name: string)
    requires ByHand(w, name) && k in w.resources && VisitFacts(w, u, k, name)
    ensures Keeps(w, u, name, {})
  {
    forall j | j in u.resources ensures Foreign(j, u.resources[j], name) {
      assert Foreign(j, w.resources[j], name);
    }
  }

  lemma VisitRegisters(w: World, v: Visit, name: string)
    requires ByHand(w, name)
    ensures Keeps(w, Visited(w, v), name, {})
    ensures Succeeds(w, v) ==> v.pass.key in Visited(w, v).resources && Registered(Visited(w, v), v.pass.key, name)
  {
    if Applies(w, v) {
      VisitMoves(w, v, name);
      FactsKeep(w, Visited(w, v), v.pass.key, name);
    }
  }

  lemma PolicyNameRecorded(c: Registration.Pass, s: Registration.State)
    requires !s.err
    ensures var t := Registration.AfterPolicy(c, s);
            !t.err ==>
              t.status.policyName == Some(c.spec.policyName) || (t.status.policyName == None && c.spec.policyName == "")
  {
  }

  lemma WithdrawKeeps(w: World, k: Key, down: set<Registration.Call>, name: string)
    requires ByHand(w, name)
    ensures Keeps(w, WithdrawnFrom(w, k, down), name, {})
  {
    if k in w.resources && w.resources[k].deleting {
      var list := Registration.StatusList(w.resources[k].status);
      WithdrawsExactly(k, list, down, |list|, Withdrawing(w.policies, false));
      forall j ensures j in Drop(w.policies[name].managed, {k}) <==> j in w.policies[name].managed && j !in {k} {
        DropMembers(w.policies[name].managed, {k}, j);
      }
    }
  }

  lemma {:induction false} NextGrows(c: Pass, i: Input, n: nat, s: Progress)
    requires n <= |c.order|
    ensures AfterProtocols(c, i, n, s).remote.next >= s.remote.next
  {
    if n > 0 {
      NextGrows(c, i, n - 1, s);
    }
  }

  /** A pass over another policy. */
  ghost predicate Elsewhere(w: World, u: World, name: string)
    requires name in w.policies
  {
    && u.resources == w.resources && u.groups == w.groups && u.remote.next >= w.remote.next
    && name in u.policies && u.policies[name] == w.policies[name]
  }

  lemma SyncElsewhere(c: Pass, w: World, other: string, name: string)
    requires Runs(c) && name in w.policies && other in w.policies && other != name
    ensures Elsewhere(w, AfterSync(c, w, other).world, name)
  {
    var i := InputOf(w, other, w.policies[other]);
    NextGrows(c, i, 2, Start(w, other));
    var t := AfterProtocols(c, i, 2, Start(w, other));
    assert AfterSync(c, w, other).world.remote in {w.remote, t.remote};
  }

  lemma DeleteElsewhere(c: Pass, w: World, other: string, name: string)
    requires name in w.policies && other in w.policies && other != name
    ensures Elsewhere(w, AfterDelete(c, w, other).world, name)
  {
  }

  lemma MergeElsewhere(c: Pass, w: World, other: string, name: string)
    requires Runs(c) && name in w.policies && other != name
    ensures Elsewhere(w, AfterPass(c, w, other).world, name)
  {
    if other in w.policies {
      SyncElsewhere(c, w, other, name);
      DeleteElsewhere(c, w, other, name);
    }
  }

  lemma ElsewhereKeeps(w: World, u: World, name: string)
    requires ByHand(w, name) && Elsewhere(w, u, name)
    ensures Keeps(w, u, name, {})
  {
  }

  lemma ProtocolKeeps(c: Pass, i: Input, p: Protocol, s: Progress)
    ensures var q := AfterProtocol(c, i, p, s).policy; q == s.policy.(tcpId := q.tcpId, udpId := q.udpId)
  {
  }

  lemma {:induction false} ProtocolsKeep(c: Pass, i: Input, n: nat, s: Progress)
    requires n <= |c.order|
    ensures var p := AfterProtocols(c, i, n, s).policy; p == s.policy.(tcpId := p.tcpId, udpId := p.udpId)
  {
    if n > 0 {
      ProtocolsKeep(c, i, n - 1, s);
      ProtocolKeeps(c, i, c.order[n - 1], AfterProtocols(c, i, n - 1, s));
    }
  }

  /** A pass over the policy itself. */
  ghost predicate Here(w: World, u: World, name: string)
    requires name in w.policies
  {
    && u.resources == w.resources && u.groups == w.groups && name in u.policies
    && var p, q := w.policies[name], u.policies[name];
    && q == p.(tcpId := q.tcpId, udpId := q.udpId, managed := q.managed)
    && forall k :: Living(w, k) && k in p.managed ==> k in q.managed
  }

  lemma MergeHere(c: Pass, w: World, name: string)
    requires Runs(c) && name in w.policies && !w.policies[name].deleting
    ensures Here(w, AfterPass(c, w, name).world, name)
  {
    var p := w.policies[name];
    LivingStay(w, p.managed);
    var t := AfterProtocols(c, InputOf(w, name, p), 2, Start(w, name));
    ProtocolsKeep(c, InputOf(w, name, p), 2, Start(w, name));
    var u := AfterPass(c, w, name).world;
    assert u.resources == w.resources && u.groups == w.groups && name in u.policies
           && u.policies[name] in {p, t.policy};
  }

  lemma LivingStay(w: World, managed: seq<Key>)
    ensures forall k :: Living(w, k) && k in managed ==> k in LiveKeys(w.resources, managed)
  {
    forall k | Living(w, k) && k in managed ensures k in LiveKeys(w.resources, managed) {
      LiveKeysMembers(w.resources, managed, k);
    }
  }

  lemma HereKeeps(w: World, u: World, name: string)
    requires ByHand(w, name) && Here(w, u, name)
    requires WellRecorded(w.policies[name], w.remote) ==> WellRecorded(u.policies[name], u.remote)
    ensures Keeps(w, u, name, {})
  {
  }

  lemma MergeRecords(c: Pass, w: World, name: string)
    requires Runs(c) && Active(w, name)
    ensures Active(AfterPass(c, w, name).world, name)
  {
    PassLeaks(c, w, name);
  }

  lemma EventKeeps(w: World, e: Event, name: string)
    requires ByHand(w, name) && Possible(e, name)
    ensures Keeps(w, Next(w, e), name, EditedBy(e))
  {
    match e {
      case Register(v) => VisitRegisters(w, v, name);
      case Withdraw(k, down) => WithdrawKeeps(w, k, down, name);
      case Merge(c, policy) =>
        if policy == name {
          MergeHere(c, w, name);
          if Active(w, name) {
            MergeRecords(c, w, name);
          }
          HereKeeps(w, Next(w, e), name);
        } else {
          MergeElsewhere(c, w, policy, name);
          ElsewhereKeeps(w, Next(w, e), name);
        }
      case _ =>
        forall k | k in Next(w, e).resources ensures Foreign(k, Next(w, e).resources[k], name) {
          assert k in w.resources ==> Foreign(k, w.resources[k], name);
        }
    }
  }

  lemma {:induction false} RunKeeps(w: World, events: seq<Event>, name: string)
    requires ByHand(w, name) && forall i :: 0 <= i < |events| ==> Possible(events[i], name)
    ensures var u := Run(w, events, name);
            && ByHand(u, name) && u.groups == w.groups && u.policies[name].spec == w.policies[name].spec
            && (WellRecorded(w.policies[name], w.remote) ==> WellRecorded(u.policies[name], u.remote))
  {
    if events != [] {
      RunKeeps(w, events[..|events| - 1], name);
      EventKeeps(Run(w, events[..|events| - 1], name), events[|events| - 1], name);
    }
  }

  /** Event j is a successful pass of k, and nobody edits k after it. */
  ghost predicate SuccessAt(w: World, events: seq<Event>, name: string, k: Key, j: nat)
    requires forall i :: 0 <= i < |events| ==> Possible(events[i], name)
  {
    && j < |events| && events[j].Register? && events[j].visit.pass.key == k
    && Succeeds(Run(w, events[..j], name), events[j].visit)
    && Unedited(events, k, j + 1)
  }

  function EditedBy(e: Event): set<Key> {
    if e.Edit? then {e.edited} else {}
  }

  lemma StepKeeps(w: World, events: seq<Event>, name: string, i: nat)
    requires ByHand(w, name) && forall i :: 0 <= i < |events| ==> Possible(events[i], name)
    requires i < |events|
    ensures Keeps(Run(w, events[..i], name), Run(w, events[..i + 1], name), name, EditedBy(events[i]))
  {
    assert events[..i + 1][..i] == events[..i];
    RunKeeps(w, events[..i], name);
    EventKeeps(Run(w, events[..i], name), events[i], name);
  }

  /** The worlds of a run, with event j in view, and whom each event edits. */
  lemma Chain(w: World, events: seq<Event>, name: string, j: nat) returns (ws: seq<World>, edits: seq<set<Key>>)
    requires ByHand(w, name) && forall i :: 0 <= i < |events| ==> Possible(events[i], name)
    requires j <= |events|
    ensures |ws| == |events| + 1 && |edits| == |events|
    ensures ws[j] == Run(w, events[..j], name) && ws[|events|] == Run(w, events, name)
    ensures forall i :: 0 <= i < |events| ==> Keeps(ws[i], ws[i + 1], name, edits[i]) && edits[i] == EditedBy(events[i])
  {
    ws := seq(|events| + 1, i requires 0 <= i <= |events| => Run(w, events[..i], name));
    edits := seq(|events|, i requires 0 <= i < |events| => EditedBy(events[i]));
    forall i | 0 <= i < |events| ensures Keeps(ws[i], ws[i + 1], name, edits[i]) {
      StepKeeps(w, events, name, i);
    }
    assert events[..|events|] == events;
  }

  lemma SuccessRegisters(w: World, events: seq<Event>, name: string, k: Key, j: nat)
    requires ByHand(w, name) && forall i :: 0 <= i < |events| ==> Possible(events[i], name)
    requires SuccessAt(w, events, name, k, j)
    ensures var u := Run(w, events[..j + 1], name); name in u.policies && k in u.resources && Registered(u, k, name)
  {
    RunKeeps(w, events[..j], name);
    VisitRegisters(Run(w, events[..j], name), events[j].visit, name);
    assert events[..j + 1][..j] == events[..j];
  }

  lemma {:induction false} Carried(ws: seq<World>, edits: seq<set<Key>>, name: string, k: Key, j: nat)
    requires |ws| == |edits| + 1 && j < |ws|
    requires forall i :: j <= i < |edits| ==> Keeps(ws[i], ws[i + 1], name, edits[i]) && k !in edits[i]
    requires name in ws[j].policies && (Living(ws[j], k) ==> Registered(ws[j], k, name)) && Living(ws[|edits|], k)
    ensures name in ws[|edits|].policies && Registered(ws[|edits|], k, name)
    decreases |edits| - j
  {
    if j < |edits| {
      assert Keeps(ws[j], ws[j + 1], name, edits[j]);
      Carried(ws, edits, name, k, j + 1);
    }
  }

  /** Nobody edits k from event j on. */
  predicate Unedited(events: seq<Event>, k: Key, j: nat) {
    forall i :: j <= i < |events| ==> !(events[i].Edit? && events[i].edited == k)
  }

  lemma StaysRegistered(w: World, events: seq<Event>, name: string, k: Key, j: nat)
    requires ByHand(w, name) && forall i :: 0 <= i < |events| ==> Possible(events[i], name)
    requires j <= |events| && Unedited(events, k, j)
    requires var u := Run(w, events[..j], name); name in u.policies && k in u.resources && Registered(u, k, name)
    requires Living(Run(w, events, name), k)
    ensures name in Run(w, events, name).policies && Registered(Run(w, events, name), k, name)
  {
    var ws, edits := Chain(w, events, name, j);
    Carried(ws, edits, name, k, j);
  }

  /** Whatever else happens, a resource that still lives is registered since its last successful pass. */
  lemma RunRegisters(w: World, events: seq<Event>, name: string, k: Key, j: nat)
    requires ByHand(w, name) && forall i :: 0 <= i < |events| ==> Possible(events[i], name)
    requires SuccessAt(w, events, name, k, j) && Living(Run(w, events, name), k)
    ensures name in Run(w, events, name).policies && Registered(Run(w, events, name), k, name)
  {
    SuccessRegisters(w, events, name, k, j);
    StaysRegistered(w, events, name, k, j + 1);
  }

  // ----- what a policy pass merges, once everyone is registered -----

  /** The live resources whose spec names the policy. */
  ghost function Namers(w: World, name: string): set<Key> {
    set k | k in w.resources && !w.resources[k].deleting && name in Names(w.resources[k].spec.policyName, ',')
  }

  ghost predicate AllRegistered(w: World, name: string) {
    && name in w.policies && w.policies[name].generatedBy == ""
    && forall k :: k in w.resources && !w.resources[k].deleting ==> Registered(w, k, name)
  }

  /** A pass then merges the resources whose specs name the policy. */
  lemma RegisteredAreChosen(w: World, name: string)
    requires AllRegistered(w, name)
    ensures Chooses(w, name, Namers(w, name))
  {
    forall k ensures Chosen(w, name, k) <==> k in Namers(w, name) {
      LiveKeysMembers(w.resources, w.policies[name].managed, k);
    }
  }

  /** Two clean passes then implement the union over them. */
  lemma RegisteredImplement(c1: Pass, c2: Pass, u: World, name: string)
    requires Clean(c1) && Clean(c2) && Active(u, name) && AllRegistered(u, name)
    ensures var v := AfterPass(c2, AfterPass(c1, u, name).world, name).world;
            && name in v.policies
            && (forall p :: Implements(u, v, name, p, Namers(u, name)))
            && v.remote.rows.Keys == u.remote.rows.Keys - RecordedIds(u.policies[name]) + RecordedIds(v.policies[name])
            && RecordedIds(v.policies[name]) <= v.remote.rows.Keys
  {
    RegisteredAreChosen(u, name);
    TwoPassesImplement(c1, c2, u, name, Namers(u, name), Tcp);
    TwoPassesImplement(c1, c2, u, name, Namers(u, name), Udp);
    TwoPassesSettle(c1, c2, u, name);
    var v := AfterPass(c2, AfterPass(c1, u, name).world, name).world;
    forall p ensures Implements(u, v, name, p, Namers(u, name)) {
      assert p == Tcp || p == Udp;
    }
  }

  /** End to end. Take any world and any run of OZResource passes, OZResource deletions, passes of any OZPolicy
      and user edits, each pass failing wherever it likes, in which every resource that lives at the end had a
      successful pass after its last edit; then two clean passes of a policy written by hand. For each protocol
      the server holds exactly one recorded policy with the sorted union of the ports of the live resources
      naming it followed by its own ports, or none where nothing is wanted. */
  lemma EndToEnd(w: World, events: seq<Event>, name: string, c1: Pass, c2: Pass)
    requires ByHand(w, name) && WellRecorded(w.policies[name], w.remote) && Clean(c1) && Clean(c2)
    requires forall i :: 0 <= i < |events| ==> Possible(events[i], name)
    requires forall k :: Living(Run(w, events, name), k) ==> exists j :: SuccessAt(w, events, name, k, j)
    ensures var u := Run(w, events, name);
            var v := AfterPass(c2, AfterPass(c1, u, name).world, name).world;
            && name in u.policies && u.policies[name].spec == w.policies[name].spec && name in v.policies
            && (forall p :: Implements(u, v, name, p, Namers(u, name)))
            && v.remote.rows.Keys == u.remote.rows.Keys - RecordedIds(u.policies[name]) + RecordedIds(v.policies[name])
            && RecordedIds(v.policies[name]) <= v.remote.rows.Keys
  {
    var u := Run(w, events, name);
    RunKeeps(w, events, name);
    forall k | Living(u, k) ensures Registered(u, k, name) {
      var j :| SuccessAt(w, events, name, k, j);
      RunRegisters(w, events, name, k, j);
    }
    RegisteredImplement(c1, c2, u, name);
  }
}
