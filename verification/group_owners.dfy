// OZGroup objects shared by several OZResources: handleGroups and the group part of reconcileDelete
// (internal/controller/ozresource_controller.go:471-586, 615-646). One World is one namespace.
module GroupOwners {
  import opened Finalizers
  import opened Slices
  import opened Tables

  /** An OZGroup; owners are the UIDs of its owner references, made says an OZResource pass created it. */
  datatype Group = Group(specName: string, owners: seq<nat>, finalizers: seq<string>, id: Option<string>, made: bool)

  datatype Call = ListGroups | Release(name: string) | Get(n: nat) | Create(n: nat) | AddOwner(n: nat)

  /** A pass of the resource with this UID; `order` is the order in which the list call returned the groups. */
  datatype Pass = Pass(uid: nat, groups: seq<string>, order: seq<string>, down: set<Call>)

  type World = map<string, Group>

  /** What handleGroups tells the rest of the pass: go on with these group IDs, or stop here. */
  datatype Verdict = Proceed(ids: seq<string>) | Stop

  function Lower(c: char): char {
    if 'A' <= c <= 'Z' then (c as int + 32) as char else c
  }

  /** Object name for a group name: lower case, blanks turned into dashes. */
  function ObjectName(group: string): string {
    if group == "" then "" else [if group[0] == ' ' then '-' else Lower(group[0])] + ObjectName(group[1..])
  }

  /** slices.Delete at the index of the first match. */
  function RemoveFirst(owners: seq<nat>, uid: nat): seq<nat> {
    if owners == [] then []
    else if owners[0] == uid then owners[1..]
    else [owners[0]] + RemoveFirst(owners[1..], uid)
  }

  function Released(uid: nat, g: Group): Group {
    if |g.owners| > 1 then g.(owners := RemoveFirst(g.owners, uid))
    else g.(finalizers := Drop(g.finalizers, {RESOURCE_CLEANUP}))
  }

  /** Whether a pass lets go of g: it owns it, and `keep` (the group names it still wants) does not list it. */
  predicate Leaves(uid: nat, keep: seq<string>, g: Group) {
    uid in g.owners && g.specName !in keep
  }

  datatype Releasing = Releasing(world: World, err: bool)

  function AfterReleases(c: Pass, keep: seq<string>, n: nat, s: Releasing): Releasing
    requires n <= |c.order|
  {
    if n == 0 then s
    else
      var t := AfterReleases(c, keep, n - 1, s);
      var name := c.order[n - 1];
      if t.err || name !in t.world || !Leaves(c.uid, keep, t.world[name]) then t
      else if Release(name) in c.down then t.(err := true)
      else t.(world := t.world[name := Released(c.uid, t.world[name])])
  }

  datatype Adding = Adding(world: World, ids: seq<string>, stopped: bool)

  function AfterAdd(c: Pass, n: nat, group: string, s: Adding): Adding {
    var name := ObjectName(group);
    if s.stopped then s
    else if Get(n) in c.down then s.(stopped := true)
    else if name !in s.world then
      if Create(n) in c.down then s.(stopped := true)
      else s.(world := s.world[name := Group(group, [c.uid], [GROUP_CLEANUP, RESOURCE_CLEANUP], None, true)])
    else
      var g := s.world[name];
      if c.uid !in g.owners && AddOwner(n) in c.down then s.(stopped := true)
      else
        var h := if c.uid in g.owners then g else g.(owners := g.owners + [c.uid]);
        Adding(s.world[name := h], if g.id.Some? then s.ids + [g.id.value] else s.ids, false)
  }

  function AfterAdds(c: Pass, n: nat, s: Adding): Adding
    requires n <= |c.groups|
  {
    if n == 0 then s else AfterAdd(c, n - 1, c.groups[n - 1], AfterAdds(c, n - 1, s))
  }

  datatype Outcome = Outcome(world: World, verdict: Verdict)

  function AfterGroups(c: Pass, w: World): Outcome {
    if ListGroups in c.down then Outcome(w, Proceed([]))
    else
      var r := AfterReleases(c, c.groups, |c.order|, Releasing(w, false));
      if r.err then Outcome(r.world, Proceed([]))
      else
        var a := AfterAdds(c, |c.groups|, Adding(r.world, [], false));
        if a.stopped || |a.ids| != |c.groups| then Outcome(a.world, Stop)
        else Outcome(a.world, Proceed(a.ids))
  }

  /** The group part of reconcileDelete. */
  function AfterDeletion(c: Pass, w: World): Releasing {
    if ListGroups in c.down then Releasing(w, true) else AfterReleases(c, [], |c.order|, Releasing(w, false))
  }

  class Namespace {
    var groups: World

    constructor (w: World)
      ensures groups == w
    {
      groups := w;
    }

    /** The loop both passes share: give up the groups that are no longer wanted. */
    method ReleaseGroups(c: Pass, keep: seq<string>) returns (err: bool)
      modifies this
      ensures Releasing(groups, err) == AfterReleases(c, keep, |c.order|, Releasing(old(groups), false))
    {
      for i := 0 to |c.order|
        invariant Releasing(groups, false) == AfterReleases(c, keep, i, Releasing(old(groups), false))
      {
        var name := c.order[i];
        if name !in groups {
          continue;
        }
        var g := groups[name];
        var ownerIndex := IndexOf(g.owners, c.uid);
        if ownerIndex == |g.owners| || g.specName in keep {
          continue;
        }
        if |g.owners| > 1 {
          g := g.(owners := g.owners[..ownerIndex] + g.owners[ownerIndex + 1..]);
        } else {
          var rest := Without(g.finalizers, RESOURCE_CLEANUP);
          g := g.(finalizers := rest);
        }
        if Release(name) in c.down {
          ReleasesStop(c, keep, i + 1, Releasing(old(groups), false));
          return true;
        }
        groups := groups[name := g];
      }
      return false;
    }

    static method IndexOf(owners: seq<nat>, uid: nat) returns (i: nat)
      ensures i <= |owners| && (i == |owners| <==> uid !in owners)
      ensures i < |owners| ==> owners[i] == uid && RemoveFirst(owners, uid) == owners[..i] + owners[i + 1..]
    {
      i := 0;
      while i < |owners| && owners[i] != uid
        invariant i <= |owners| && uid !in owners[..i]
      {
        i := i + 1;
      }
      if i < |owners| {
        RemoveFirstAt(owners, uid, i);
      }
    }

    method HandleGroups(c: Pass) returns (verdict: Verdict)
      modifies this
      ensures Outcome(groups, verdict) == AfterGroups(c, old(groups))
    {
      if ListGroups in c.down {
        return Proceed([]);
      }
      var err := ReleaseGroups(c, c.groups);
      if err {
        return Proceed([]);
      }
      var ids: seq<string> := [];
      ghost var start := Adding(groups, [], false);
      for i := 0 to |c.groups|
        invariant Adding(groups, ids, false) == AfterAdds(c, i, start)
      {
        var name := ObjectName(c.groups[i]);
        if Get(i) in c.down {
          AddsStop(c, i + 1, start);
          return Stop;
        }
        if name !in groups {
          if Create(i) in c.down {
            AddsStop(c, i + 1, start);
            return Stop;
          }
          groups := groups[name := Group(c.groups[i], [c.uid], [GROUP_CLEANUP, RESOURCE_CLEANUP], None, true)];
          continue;
        }
        var g := groups[name];
        if c.uid !in g.owners {
          g := g.(owners := g.owners + [c.uid]);
          if AddOwner(i) in c.down {
            AddsStop(c, i + 1, start);
            return Stop;
          }
        }
        groups := groups[name := g];
        if g.id.Some? {
          ids := ids + [g.id.value];
        }
      }
      if |ids| != |c.groups| {
        return Stop;
      }
      return Proceed(ids);
    }

    method Delete(c: Pass) returns (err: bool)
      modifies this
      ensures Releasing(groups, err) == AfterDeletion(c, old(groups))
    {
      if ListGroups in c.down {
        return true;
      }
      err := ReleaseGroups(c, []);
    }
  }

  lemma {:induction false} RemoveFirstAt(owners: seq<nat>, uid: nat, i: nat)
    requires i < |owners| && owners[i] == uid && uid !in owners[..i]
    ensures RemoveFirst(owners, uid) == owners[..i] + owners[i + 1..]
  {
    if i > 0 {
      assert owners[0] in owners[..i];
      assert owners[1..][..i - 1] == owners[1..i];
      assert forall u :: u in owners[1..i] ==> u in owners[..i];
      RemoveFirstAt(owners[1..], uid, i - 1);
    }
  }

  lemma {:induction false} ReleasesStop(c: Pass, keep: seq<string>, n: nat, s: Releasing)
    requires n <= |c.order| && AfterReleases(c, keep, n, s).err
    ensures AfterReleases(c, keep, |c.order|, s) == AfterReleases(c, keep, n, s)
    decreases |c.order| - n
  {
    if n < |c.order| {
      ReleasesStop(c, keep, n + 1, s);
    }
  }

  lemma {:induction false} AddsStop(c: Pass, n: nat, s: Adding)
    requires n <= |c.groups| && AfterAdds(c, n, s).stopped
    ensures AfterAdds(c, |c.groups|, s) == AfterAdds(c, n, s)
    decreases |c.groups| - n
  {
    if n < |c.groups| {
      AddsStop(c, n + 1, s);
    }
  }

  // ----- ownership -----

  /** h is g after a pass of resource uid: the other owners are untouched and in order, a reference list does
      not become empty or repetitive, and the cleanup finalizer only goes if uid was the sole owner. */
  ghost predicate Touched(uid: nat, g: Group, h: Group) {
    && h.specName == g.specName && h.id == g.id && h.made == g.made
    && Drop(h.owners, {uid}) == Drop(g.owners, {uid})
    && (g.owners != [] ==> h.owners != [])
    && (NoRepeats(g.owners) ==> NoRepeats(h.owners))
    && (h.finalizers == g.finalizers || h.finalizers == Drop(g.finalizers, {RESOURCE_CLEANUP}))
  }

  lemma {:induction false} RemoveFirstDrops(owners: seq<nat>, uid: nat)
    ensures Drop(RemoveFirst(owners, uid), {uid}) == Drop(owners, {uid})
    ensures |RemoveFirst(owners, uid)| >= |owners| - 1
    ensures NoRepeats(owners) ==> RemoveFirst(owners, uid) == Drop(owners, {uid})
  {
    if owners != [] {
      RemoveFirstDrops(owners[1..], uid);
      assert NoRepeats(owners) ==> NoRepeats(owners[1..]);
      if owners[0] == uid && NoRepeats(owners) {
        DropNothing(owners[1..], {uid});
      }
    }
  }

  lemma ReleaseTouches(uid: nat, g: Group)
    requires uid in g.owners
    ensures Touched(uid, g, Released(uid, g))
    ensures Released(uid, g).finalizers != g.finalizers ==> g.owners == [uid]
    ensures NoRepeats(g.owners) && |g.owners| > 1 ==> uid !in Released(uid, g).owners
  {
    RemoveFirstDrops(g.owners, uid);
    if NoRepeats(g.owners) {
      DropKeepsDistinct(g.owners, {uid});
      DropMembers(g.owners, {uid}, uid);
    }
  }

  lemma AddTouches(uid: nat, g: Group)
    requires uid !in g.owners
    ensures Touched(uid, g, g.(owners := g.owners + [uid]))
  {
    DropConcat(g.owners, [uid], {uid});
    assert Drop([uid], {uid}) == [];
  }

  lemma TouchedTwice(uid: nat, g: Group, h: Group, k: Group)
    requires Touched(uid, g, h) && Touched(uid, h, k)
    ensures Touched(uid, g, k)
  {
    DropTwice(g.finalizers, {RESOURCE_CLEANUP}, {RESOURCE_CLEANUP});
    assert {RESOURCE_CLEANUP} + {RESOURCE_CLEANUP} == {RESOURCE_CLEANUP};
  }

  ghost predicate Guarded(g: Group) {
    RESOURCE_CLEANUP in g.finalizers
  }

  /** A pass of uid that wants `keep` changed w into t: nothing but its own references, and a cleanup
      finalizer only where uid was the sole owner of a group it no longer lists. */
  ghost predicate OwnChanges(uid: nat, keep: seq<string>, w: World, t: World) {
    && (forall x :: x in w ==> x in t && Touched(uid, w[x], t[x]))
    && (forall x :: x in w && Guarded(w[x]) && !Guarded(t[x]) ==> w[x].owners == [uid] && w[x].specName !in keep)
    && (forall x :: x in t && x !in w ==> t[x].made && t[x].owners == [uid] && Guarded(t[x]))
  }

  /** The list call returns every group of the namespace once. */
  ghost predicate Lists(order: seq<string>, w: World) {
    NoRepeats(order) && forall x :: x in w <==> x in order
  }

  /** What the releasing walk has done after its first n groups. */
  ghost predicate Releases(c: Pass, keep: seq<string>, n: nat, w: World, s: Releasing)
    requires n <= |c.order|
  {
    && s.world.Keys == w.Keys
    && (forall x :: x in w ==> s.world[x] == w[x] || (Leaves(c.uid, keep, w[x]) && s.world[x] == Released(c.uid, w[x])))
    && (forall x :: x in w && x !in c.order[..n] ==> s.world[x] == w[x])
    && (!s.err ==> forall x :: x in w && x in c.order[..n] && Leaves(c.uid, keep, w[x]) ==>
          s.world[x] == Released(c.uid, w[x]))
  }

  lemma {:induction false} ReleasesWalk(c: Pass, keep: seq<string>, n: nat, w: World)
    requires n <= |c.order| && NoRepeats(c.order)
    ensures Releases(c, keep, n, w, AfterReleases(c, keep, n, Releasing(w, false)))
  {
    if n > 0 {
      ReleasesWalk(c, keep, n - 1, w);
      OneMoreReleased(c, keep, n, w, AfterReleases(c, keep, n - 1, Releasing(w, false)));
    }
  }

  lemma OneMoreReleased(c: Pass, keep: seq<string>, n: nat, w: World, s: Releasing)
    requires 0 < n <= |c.order| && NoRepeats(c.order) && Releases(c, keep, n - 1, w, s)
    requires s == AfterReleases(c, keep, n - 1, Releasing(w, false))
    ensures Releases(c, keep, n, w, AfterReleases(c, keep, n, Releasing(w, false)))
  {
    assert c.order[..n] == c.order[..n - 1] + [c.order[n - 1]];
    assert c.order[n - 1] !in c.order[..n - 1];
  }

  lemma ReleasesOwn(c: Pass, keep: seq<string>, w: World, s: Releasing)
    requires Releases(c, keep, |c.order|, w, s)
    ensures OwnChanges(c.uid, keep, w, s.world)
  {
    forall x | x in w
      ensures Touched(c.uid, w[x], s.world[x])
      ensures Guarded(w[x]) && !Guarded(s.world[x]) ==> w[x].owners == [c.uid] && w[x].specName !in keep
    {
      if s.world[x] != w[x] {
        ReleaseTouches(c.uid, w[x]);
      } else {
        TouchedNot(c.uid, w[x]);
      }
    }
  }

  lemma TouchedNot(uid: nat, g: Group)
    ensures Touched(uid, g, g)
  {
  }

  lemma OwnChangesTwice(uid: nat, keep: seq<string>, w: World, s: World, t: World)
    requires OwnChanges(uid, keep, w, s) && OwnChanges(uid, keep, s, t)
    requires forall x :: x in s ==> t[x].finalizers == s[x].finalizers
    requires forall x :: x in s && x !in w ==> t[x] == s[x]
    ensures OwnChanges(uid, keep, w, t)
  {
    forall x | x in w ensures Touched(uid, w[x], t[x]) {
      TouchedTwice(uid, w[x], s[x], t[x]);
    }
  }

  /** What the adding walk has done after the first n wanted groups. */
  ghost predicate Adds(c: Pass, n: nat, w: World, a: Adding)
    requires n <= |c.groups|
  {
    && OwnChanges(c.uid, c.groups, w, a.world)
    && (forall x :: x in w ==> a.world[x].finalizers == w[x].finalizers)
    && (!a.stopped ==> forall j :: 0 <= j < n ==>
          ObjectName(c.groups[j]) in a.world && c.uid in a.world[ObjectName(c.groups[j])].owners)
  }

  lemma PutOwn(uid: nat, keep: seq<string>, w: World, t: World, name: string, h: Group)
    requires OwnChanges(uid, keep, w, t)
    requires if name in t then
               Touched(uid, t[name], h) && h.finalizers == t[name].finalizers && (name !in w ==> h == t[name])
             else h.made && h.owners == [uid] && Guarded(h)
    ensures OwnChanges(uid, keep, w, t[name := h])
  {
    var u := t[name := h];
    forall x | x in w ensures x in u && Touched(uid, w[x], u[x]) && u[x].finalizers == t[x].finalizers {
      if x == name {
        TouchedTwice(uid, w[name], t[name], h);
      } else {
        assert u[x] == t[x];
      }
    }
  }

  /** One adding step, without its branches. */
  ghost predicate AddStep(uid: nat, name: string, a: Adding, b: Adding) {
    && (b.world == a.world || (name in b.world && b.world == a.world[name := b.world[name]]))
    && (b.world != a.world && name in a.world ==>
          Touched(uid, a.world[name], b.world[name]) && b.world[name].finalizers == a.world[name].finalizers
          && uid !in a.world[name].owners)
    && (name in b.world && name !in a.world ==>
          b.world[name].made && b.world[name].owners == [uid] && Guarded(b.world[name]))
    && (!b.stopped ==> !a.stopped && name in b.world && uid in b.world[name].owners)
  }

  lemma AddIsStep(c: Pass, n: nat, group: string, a: Adding)
    ensures AddStep(c.uid, ObjectName(group), a, AfterAdd(c, n, group, a))
  {
    var name := ObjectName(group);
    if name in a.world {
      assert a.world[name := a.world[name]] == a.world;
      if c.uid !in a.world[name].owners {
        AddTouches(c.uid, a.world[name]);
      }
    }
  }

  lemma AddWalks(c: Pass, n: nat, w: World, a: Adding, b: Adding)
    requires 0 < n <= |c.groups| && Adds(c, n - 1, w, a) && AddStep(c.uid, ObjectName(c.groups[n - 1]), a, b)
    ensures Adds(c, n, w, b)
  {
    var name := ObjectName(c.groups[n - 1]);
    if b.world != a.world {
      PutOwn(c.uid, c.groups, w, a.world, name, b.world[name]);
    }
    AddOwned(c, n, w, a, b, name);
  }

  lemma AddOwned(c: Pass, n: nat, w: World, a: Adding, b: Adding, name: string)
    requires 0 < n <= |c.groups| && Adds(c, n - 1, w, a) && AddStep(c.uid, name, a, b)
    requires name == ObjectName(c.groups[n - 1])
    ensures forall x :: x in w ==> x in b.world && b.world[x].finalizers == w[x].finalizers
    ensures !b.stopped ==> forall j :: 0 <= j < n ==>
              ObjectName(c.groups[j]) in b.world && c.uid in b.world[ObjectName(c.groups[j])].owners
  {
    if !b.stopped {
      forall j | 0 <= j < n
        ensures ObjectName(c.groups[j]) in b.world && c.uid in b.world[ObjectName(c.groups[j])].owners
      {
        if j < n - 1 {
          assert c.uid in a.world[ObjectName(c.groups[j])].owners;
        }
      }
    }
  }

  lemma NothingAdded(c: Pass, w: World)
    ensures Adds(c, 0, w, Adding(w, [], false))
  {
    forall x | x in w ensures Touched(c.uid, w[x], w[x]) {
      TouchedNot(c.uid, w[x]);
    }
  }

  lemma {:induction false} AddsWalk(c: Pass, n: nat, w: World)
    requires n <= |c.groups|
    ensures Adds(c, n, w, AfterAdds(c, n, Adding(w, [], false)))
  {
    if n == 0 {
      NothingAdded(c, w);
    } else {
      AddsWalk(c, n - 1, w);
      var a := AfterAdds(c, n - 1, Adding(w, [], false));
      OneMore(c, n, w, a);
    }
  }

  lemma OneMore(c: Pass, n: nat, w: World, a: Adding)
    requires 0 < n <= |c.groups| && Adds(c, n - 1, w, a)
    ensures Adds(c, n, w, AfterAdd(c, n - 1, c.groups[n - 1], a))
  {
    var b := AfterAdd(c, n - 1, c.groups[n - 1], a);
    AddIsStep(c, n - 1, c.groups[n - 1], a);
    AddWalks(c, n, w, a, b);
  }

  /** handleGroups, whatever fails: only references of this resource move, and a cleanup finalizer only goes
      from a group this resource was the sole owner of and no longer lists. */
  lemma GroupsOwn(c: Pass, w: World)
    requires NoRepeats(c.order)
    ensures OwnChanges(c.uid, c.groups, w, AfterGroups(c, w).world)
  {
    forall x | x in w ensures Touched(c.uid, w[x], w[x]) {
      TouchedNot(c.uid, w[x]);
    }
    if ListGroups !in c.down {
      ReleasesWalk(c, c.groups, |c.order|, w);
      var r := AfterReleases(c, c.groups, |c.order|, Releasing(w, false));
      ReleasesOwn(c, c.groups, w, r);
      if !r.err {
        AddsWalk(c, |c.groups|, r.world);
        OwnChangesTwice(c.uid, c.groups, w, r.world, AfterAdds(c, |c.groups|, Adding(r.world, [], false)).world);
      }
    }
  }

  lemma DeletionOwn(c: Pass, w: World)
    requires NoRepeats(c.order)
    ensures OwnChanges(c.uid, [], w, AfterDeletion(c, w).world)
  {
    forall x | x in w ensures Touched(c.uid, w[x], w[x]) {
      TouchedNot(c.uid, w[x]);
    }
    if ListGroups !in c.down {
      ReleasesWalk(c, [], |c.order|, w);
      ReleasesOwn(c, [], w, AfterReleases(c, [], |c.order|, Releasing(w, false)));
    }
  }

  // ----- runs of many resources -----

  /** What may happen in a namespace: passes of any resource, and things the environment does. */
  datatype Event =
    | Wanted(pass: Pass)
    | Deleted(pass: Pass)
    | Published(name: string, id: Option<string>)
    | Appeared(name: string, group: Group)
    | Vanished(name: string)

  ghost predicate Possible(e: Event, w: World) {
    match e
    case Wanted(c) => NoRepeats(c.order)
    case Deleted(c) => NoRepeats(c.order)
    case Published(x, _) => x in w
    case Appeared(x, g) => x !in w && !g.made && NoRepeats(g.owners)
    case Vanished(x) => true
  }

  function Next(e: Event, w: World): World {
    match e
    case Wanted(c) => AfterGroups(c, w).world
    case Deleted(c) => AfterDeletion(c, w).world
    case Published(x, id) => if x in w then w[x := w[x].(id := id)] else w
    case Appeared(x, g) => w[x := g]
    case Vanished(x) => w - {x}
  }

  function Run(events: seq<Event>, w: World): World {
    if events == [] then w else Next(events[|events| - 1], Run(events[..|events| - 1], w))
  }

  /** Owner lists never repeat a UID, and a group made by an OZResource always has an owner. */
  ghost predicate WellOwned(w: World) {
    forall x :: x in w ==> NoRepeats(w[x].owners) && (w[x].made ==> w[x].owners != [])
  }

  lemma {:induction false} RunKeepsOwners(events: seq<Event>, w: World)
    requires WellOwned(w)
    requires forall i :: 0 <= i < |events| ==> Possible(events[i], Run(events[..i], w))
    ensures WellOwned(Run(events, w))
  {
    if events != [] {
      var front, e := events[..|events| - 1], events[|events| - 1];
      forall i | 0 <= i < |front| ensures Possible(front[i], Run(front[..i], w)) {
        assert front[..i] == events[..i];
      }
      RunKeepsOwners(front, w);
      var u := Run(front, w);
      match e {
        case Wanted(c) => GroupsOwn(c, u);
        case Deleted(c) => DeletionOwn(c, u);
        case _ =>
      }
    }
  }

  /** Over a run, the cleanup finalizer of an existing group only ever goes in a pass of a resource that is
      its sole owner at that moment. */
  lemma GuardGoesWithSoleOwner(events: seq<Event>, w: World, i: nat, x: string)
    requires i < |events| && Possible(events[i], Run(events[..i], w))
    requires x in Run(events[..i], w) && x in Run(events[..i + 1], w)
    requires Guarded(Run(events[..i], w)[x]) && !Guarded(Run(events[..i + 1], w)[x])
    ensures events[i].Wanted? || events[i].Deleted?
    ensures Run(events[..i], w)[x].owners == [events[i].pass.uid]
  {
    assert events[..i + 1][..i] == events[..i];
    var u := Run(events[..i], w);
    match events[i] {
      case Wanted(c) => GroupsOwn(c, u);
      case Deleted(c) => DeletionOwn(c, u);
      case _ =>
    }
  }
}
