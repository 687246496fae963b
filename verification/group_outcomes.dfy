// What a resource's pass over the shared groups yields: the IDs it goes on with, the groups it makes, and the groups
// it lets go of.
module GroupOutcomes {
  import opened Finalizers
  import opened GroupOwners
  import opened Slices
  import opened Tables

  // ----- object names -----

  /** Position by position: blanks become dashes, capitals small letters, everything else stays. */
  lemma {:induction false} ObjectNameAt(group: string, i: nat)
    ensures |ObjectName(group)| == |group|
    ensures i < |group| ==>
              ObjectName(group)[i] == if group[i] == ' ' then '-'
                                      else if 'A' <= group[i] <= 'Z' then (group[i] as int + 32) as char
                                      else group[i]
  {
    if group != "" {
      ObjectNameAt(group[1..], if i > 0 then i - 1 else 0);
    }
  }

  // ----- group IDs -----

  /** While every group so far had an ID, the IDs are those of the groups, in order. */
  ghost predicate IdsMatch(c: Pass, n: nat, a: Adding)
    requires n <= |c.groups|
  {
    && |a.ids| <= n
    && (!a.stopped && |a.ids| == n ==>
          forall j :: 0 <= j < n ==>
            ObjectName(c.groups[j]) in a.world && a.world[ObjectName(c.groups[j])].id == Some(a.ids[j]))
  }

  /** IDs of existing groups never change in the walk. */
  lemma AddKeepsIds(c: Pass, n: nat, group: string, a: Adding)
    ensures var b := AfterAdd(c, n, group, a);
            && (forall x :: x in a.world ==> x in b.world && b.world[x].id == a.world[x].id)
            && (!b.stopped ==> !a.stopped && ObjectName(group) in b.world)
            && (b.ids == a.ids || (ObjectName(group) in b.world && b.world[ObjectName(group)].id.Some?
                                   && b.ids == a.ids + [b.world[ObjectName(group)].id.value]))
  {
  }

  lemma OneMoreId(c: Pass, n: nat, a: Adding)
    requires 0 < n <= |c.groups| && IdsMatch(c, n - 1, a)
    ensures IdsMatch(c, n, AfterAdd(c, n - 1, c.groups[n - 1], a))
  {
    AddKeepsIds(c, n - 1, c.groups[n - 1], a);
  }

  lemma {:induction false} AddsMatchIds(c: Pass, n: nat, w: World)
    requires n <= |c.groups|
    ensures IdsMatch(c, n, AfterAdds(c, n, Adding(w, [], false)))
  {
    if n > 0 {
      AddsMatchIds(c, n - 1, w);
      OneMoreId(c, n, AfterAdds(c, n - 1, Adding(w, [], false)));
    }
  }

  lemma {:induction false} ReleaseErrs(c: Pass, keep: seq<string>, n: nat, w: World)
    requires n <= |c.order| && AfterReleases(c, keep, n, Releasing(w, false)).err
    ensures exists x :: x in c.order && Release(x) in c.down
  {
    if n > 0 && AfterReleases(c, keep, n - 1, Releasing(w, false)).err {
      ReleaseErrs(c, keep, n - 1, w);
    }
  }

  /** What the rest of a pass goes on with: the ID of every listed group, in order; or none at all, but only when the
      list of groups or a release failed. */
  lemma IdsOutcome(c: Pass, w: World)
    requires AfterGroups(c, w).verdict.Proceed?
    ensures var o := AfterGroups(c, w);
            || (&& |o.verdict.ids| == |c.groups|
                && forall j :: 0 <= j < |c.groups| ==>
                     var x := ObjectName(c.groups[j]);
                     x in o.world && o.world[x].id == Some(o.verdict.ids[j]))
            || (o.verdict.ids == [] && (ListGroups in c.down || exists x :: x in c.order && Release(x) in c.down))
  {
    if ListGroups !in c.down {
      var r := AfterReleases(c, c.groups, |c.order|, Releasing(w, false));
      if r.err {
        ReleaseErrs(c, c.groups, |c.order|, w);
      } else {
        AddsMatchIds(c, |c.groups|, r.world);
      }
    }
  }

  /** All listed groups exist and have their ID. */
  ghost predicate AllReady(c: Pass, n: nat, w: World)
    requires n <= |c.groups|
  {
    forall j :: 0 <= j < n ==> ObjectName(c.groups[j]) in w && w[ObjectName(c.groups[j])].id.Some?
  }

  /** A clean walk counts an ID for exactly the groups that were ready before it. */
  ghost predicate Counts(c: Pass, n: nat, w: World, a: Adding)
    requires n <= |c.groups|
  {
    && !a.stopped && (forall x :: x in w ==> x in a.world && a.world[x].id == w[x].id)
    && (forall x :: x in a.world && x !in w ==> a.world[x].id == None)
    && |a.ids| <= n && (|a.ids| == n <==> AllReady(c, n, w))
  }

  lemma OneMoreCounts(c: Pass, n: nat, w: World, a: Adding)
    requires c.down == {} && 0 < n <= |c.groups| && Counts(c, n - 1, w, a)
    ensures Counts(c, n, w, AfterAdd(c, n - 1, c.groups[n - 1], a))
  {
    AddKeepsIds(c, n - 1, c.groups[n - 1], a);
    assert AllReady(c, n, w) <==> AllReady(c, n - 1, w) && ObjectName(c.groups[n - 1]) in w
                                  && w[ObjectName(c.groups[n - 1])].id.Some?;
  }

  lemma {:induction false} AddsCount(c: Pass, n: nat, w: World)
    requires c.down == {} && n <= |c.groups|
    ensures Counts(c, n, w, AfterAdds(c, n, Adding(w, [], false)))
  {
    if n > 0 {
      AddsCount(c, n - 1, w);
      OneMoreCounts(c, n, w, AfterAdds(c, n - 1, Adding(w, [], false)));
    }
  }

  /** With no call failing the pass goes on exactly when every listed group was there with its ID. */
  lemma CleanProceedsExactlyWhen(c: Pass, w: World)
    requires c.down == {} && NoRepeats(c.order)
    ensures AfterGroups(c, w).verdict.Proceed? <==> AllReady(c, |c.groups|, w)
  {
    NoReleaseFails(c, c.groups, |c.order|, w);
    var r := AfterReleases(c, c.groups, |c.order|, Releasing(w, false));
    ReleasesWalk(c, c.groups, |c.order|, w);
    assert forall x :: x in w <==> x in r.world;
    assert forall x :: x in w ==> r.world[x].id == w[x].id;
    AddsCount(c, |c.groups|, r.world);
  }

  /** One of the first n listed groups has object name x. */
  ghost predicate Used(c: Pass, n: nat, x: string)
    requires n <= |c.groups|
  {
    exists j :: 0 <= j < n && ObjectName(c.groups[j]) == x
  }

  /** The j-th listed group is there with its ID, can be read, and lists the resource as owner or can be made to. */
  ghost predicate Joins(c: Pass, v: World, j: nat)
    requires j < |c.groups|
  {
    var x := ObjectName(c.groups[j]);
    && Get(j) !in c.down && x in v && v[x].id.Some?
    && (c.uid in v[x].owners || Used(c, j, x) || AddOwner(j) !in c.down)
  }

  ghost predicate Walked(c: Pass, n: nat, v: World, a: Adding)
    requires n <= |c.groups|
  {
    && |a.ids| <= n
    && (!a.stopped ==>
          && (forall x :: x in v ==> x in a.world && a.world[x].id == v[x].id)
          && (forall x :: x in v ==> (c.uid in a.world[x].owners <==> c.uid in v[x].owners || Used(c, n, x)))
          && (forall x :: x in a.world && x !in v ==> a.world[x].id == None))
    && (!a.stopped && |a.ids| == n <==> forall j :: 0 <= j < n ==> Joins(c, v, j))
  }

  /** What a step keeps of the groups. */
  lemma StepWalks(c: Pass, n: nat, v: World, a: Adding)
    requires 0 < n <= |c.groups| && Walked(c, n - 1, v, a)
    ensures var b := AfterAdd(c, n - 1, c.groups[n - 1], a);
            !b.stopped ==>
              && (forall x :: x in v ==> x in b.world && b.world[x].id == v[x].id)
              && (forall x :: x in v ==> (c.uid in b.world[x].owners <==> c.uid in v[x].owners || Used(c, n, x)))
              && (forall x :: x in b.world && x !in v ==> b.world[x].id == None)
  {
    var name := ObjectName(c.groups[n - 1]);
    forall x ensures Used(c, n, x) <==> Used(c, n - 1, x) || x == name {
      assert x == name ==> ObjectName(c.groups[n - 1]) == x;
    }
  }

  lemma OneMoreWalked(c: Pass, n: nat, v: World, a: Adding)
    requires 0 < n <= |c.groups| && Walked(c, n - 1, v, a)
    ensures Walked(c, n, v, AfterAdd(c, n - 1, c.groups[n - 1], a))
  {
    var b := AfterAdd(c, n - 1, c.groups[n - 1], a);
    StepWalks(c, n, v, a);
    assert !b.stopped && |b.ids| == n <==> !a.stopped && |a.ids| == n - 1 && Joins(c, v, n - 1);
  }

  lemma {:induction false} AddsWalk(c: Pass, n: nat, v: World)
    requires n <= |c.groups|
    ensures Walked(c, n, v, AfterAdds(c, n, Adding(v, [], false)))
  {
    if n > 0 {
      AddsWalk(c, n - 1, v);
      OneMoreWalked(c, n, v, AfterAdds(c, n - 1, Adding(v, [], false)));
    }
  }

  /** Whatever fails: a pass whose list or releases fail goes on without IDs; any other goes on exactly when every
      listed group joins, judged by the groups as the releases left them. */
  lemma ProceedsExactlyWhen(c: Pass, w: World)
    requires NoRepeats(c.order)
    ensures var o := AfterGroups(c, w);
            var r := AfterReleases(c, c.groups, |c.order|, Releasing(w, false)).world;
            if ListGroups in c.down || exists i :: 0 <= i < |c.order| && Blocked(c, c.groups, w, c.order[i])
            then o.verdict == Proceed([]) && o.world == (if ListGroups in c.down then w else r)
            else o.verdict.Proceed? <==> forall j :: 0 <= j < |c.groups| ==> Joins(c, r, j)
  {
    ReleaseErrsExactlyWhen(c, c.groups, |c.order|, w);
    AddsWalk(c, |c.groups|, AfterReleases(c, c.groups, |c.order|, Releasing(w, false)).world);
  }

  lemma {:induction false} NoReleaseFails(c: Pass, keep: seq<string>, n: nat, w: World)
    requires n <= |c.order| && forall x :: Release(x) !in c.down
    ensures !AfterReleases(c, keep, n, Releasing(w, false)).err
  {
    if n > 0 {
      NoReleaseFails(c, keep, n - 1, w);
    }
  }

  // ----- groups a pass makes -----

  /** Object x as the pass makes it for one of its first n groups. */
  ghost predicate MadeFor(c: Pass, n: nat, x: string, g: Group)
    requires n <= |c.groups|
  {
    exists j :: 0 <= j < n && ObjectName(c.groups[j]) == x
      && g == Group(c.groups[j], [c.uid], ["openzro.io/group-cleanup", "openzro.io/resource-cleanup"], None, true)
  }

  ghost predicate Makes(c: Pass, n: nat, w: World, a: Adding)
    requires n <= |c.groups|
  {
    && (forall x :: x in w ==> x in a.world)
    && (forall x :: x in a.world && x !in w ==> MadeFor(c, n, x, a.world[x]))
  }

  lemma OneMoreMade(c: Pass, n: nat, w: World, a: Adding)
    requires 0 < n <= |c.groups| && Makes(c, n - 1, w, a)
    ensures Makes(c, n, w, AfterAdd(c, n - 1, c.groups[n - 1], a))
  {
    var b := AfterAdd(c, n - 1, c.groups[n - 1], a);
    var name := ObjectName(c.groups[n - 1]);
    forall x | x in b.world && x !in w ensures MadeFor(c, n, x, b.world[x]) {
      if x in a.world {
        assert MadeFor(c, n - 1, x, a.world[x]) && b.world[x] == a.world[x];
      } else {
        assert x == name && ObjectName(c.groups[n - 1]) == x;
      }
    }
  }

  lemma {:induction false} AddsMake(c: Pass, n: nat, w: World)
    requires n <= |c.groups|
    ensures Makes(c, n, w, AfterAdds(c, n, Adding(w, [], false)))
  {
    if n > 0 {
      AddsMake(c, n - 1, w);
      OneMoreMade(c, n, w, AfterAdds(c, n - 1, Adding(w, [], false)));
    }
  }

  /** Every group a pass makes, whatever fails, is named after a listed group, wants that group's name, has the
      resource as its owner and carries both finalizers. */
  lemma MadeGroups(c: Pass, w: World, x: string)
    requires NoRepeats(c.order) && x in AfterGroups(c, w).world && x !in w
    ensures MadeFor(c, |c.groups|, x, AfterGroups(c, w).world[x])
  {
    ReleasesWalk(c, c.groups, |c.order|, w);
    AddsMake(c, |c.groups|, AfterReleases(c, c.groups, |c.order|, Releasing(w, false)).world);
  }

  // ----- groups a pass lets go of -----

  /** Group g after uid let go of it, or kept it because `keep` lists it or it never owned it. */
  ghost predicate LetGo(uid: nat, keep: seq<string>, g: Group, h: Group) {
    if uid in g.owners && g.specName !in keep then
      if |g.owners| > 1 then
        && h == g.(owners := h.owners) && uid !in h.owners && NoRepeats(h.owners)
        && forall o :: o != uid ==> (o in h.owners <==> o in g.owners)
      else
        && h == g.(finalizers := h.finalizers)
        && forall f :: f in h.finalizers <==> f in g.finalizers && f != "openzro.io/resource-cleanup"
    else h == g
  }

  lemma SharedIsLetGo(uid: nat, keep: seq<string>, g: Group)
    requires NoRepeats(g.owners) && Leaves(uid, keep, g) && |g.owners| > 1
    ensures LetGo(uid, keep, g, Released(uid, g))
  {
    RemoveFirstDrops(g.owners, uid);
    DropKeepsDistinct(g.owners, {uid});
    var h := Released(uid, g);
    assert h == g.(owners := Drop(g.owners, {uid}));
    forall o ensures o in h.owners <==> o in g.owners && o != uid {
      DropMembers(g.owners, {uid}, o);
    }
  }

  lemma SoleIsLetGo(uid: nat, keep: seq<string>, g: Group)
    requires Leaves(uid, keep, g) && |g.owners| <= 1
    ensures LetGo(uid, keep, g, Released(uid, g))
  {
    assert RESOURCE_CLEANUP == "openzro.io/resource-cleanup";
    forall f ensures f in Released(uid, g).finalizers <==> f in g.finalizers && f != RESOURCE_CLEANUP {
      DropMembers(g.finalizers, {RESOURCE_CLEANUP}, f);
    }
  }

  lemma ReleasedIsLetGo(uid: nat, keep: seq<string>, g: Group)
    requires NoRepeats(g.owners)
    ensures LetGo(uid, keep, g, if Leaves(uid, keep, g) then Released(uid, g) else g)
  {
    if Leaves(uid, keep, g) {
      if |g.owners| > 1 {
        SharedIsLetGo(uid, keep, g);
      } else {
        SoleIsLetGo(uid, keep, g);
      }
    }
  }

  /** The releasing walk, when it gets through, lets go of exactly the groups the resource owns and does not keep. */
  lemma ReleasesLetGo(c: Pass, keep: seq<string>, w: World)
    requires Lists(c.order, w) && !AfterReleases(c, keep, |c.order|, Releasing(w, false)).err
    requires forall x :: x in w ==> NoRepeats(w[x].owners)
    ensures var t := AfterReleases(c, keep, |c.order|, Releasing(w, false)).world;
            t.Keys == w.Keys && forall x :: x in w ==> LetGo(c.uid, keep, w[x], t[x])
  {
    ReleasesWalk(c, keep, |c.order|, w);
    assert c.order[..|c.order|] == c.order;
    var t := AfterReleases(c, keep, |c.order|, Releasing(w, false)).world;
    forall x | x in w ensures LetGo(c.uid, keep, w[x], t[x]) {
      ReleasedIsLetGo(c.uid, keep, w[x]);
    }
  }

  /** The update of object x fails, and the walk needs it: the resource owns x and does not keep it. */
  ghost predicate Blocked(c: Pass, keep: seq<string>, w: World, x: string) {
    x in w && c.uid in w[x].owners && w[x].specName !in keep && Release(x) in c.down
  }

  lemma ReleaseStep(c: Pass, keep: seq<string>, n: nat, w: World, s: Releasing)
    requires 0 < n <= |c.order| && NoRepeats(c.order) && Releases(c, keep, n - 1, w, s)
    requires s == AfterReleases(c, keep, n - 1, Releasing(w, false))
    ensures AfterReleases(c, keep, n, Releasing(w, false)).err <==> s.err || Blocked(c, keep, w, c.order[n - 1])
  {
    assert c.order[n - 1] !in c.order[..n - 1];
  }

  /** A walk fails exactly when one of its updates does. */
  lemma {:induction false} ReleaseErrsExactlyWhen(c: Pass, keep: seq<string>, n: nat, w: World)
    requires n <= |c.order| && NoRepeats(c.order)
    ensures AfterReleases(c, keep, n, Releasing(w, false)).err <==>
            exists i :: 0 <= i < n && Blocked(c, keep, w, c.order[i])
  {
    if n > 0 {
      ReleaseErrsExactlyWhen(c, keep, n - 1, w);
      ReleasesWalk(c, keep, n - 1, w);
      ReleaseStep(c, keep, n, w, AfterReleases(c, keep, n - 1, Releasing(w, false)));
    }
  }

  /** The group part of a deletion fails exactly when the list or the update of one of the resource's groups does;
      otherwise the resource has let go of every group it owned, and nothing else has changed. */
  lemma DeletionOutcome(c: Pass, w: World)
    requires Lists(c.order, w) && forall x :: x in w ==> NoRepeats(w[x].owners)
    ensures var r := AfterDeletion(c, w);
            && (r.err <==> ListGroups in c.down || exists x :: Blocked(c, [], w, x))
            && (!r.err ==> r.world.Keys == w.Keys && forall x :: x in w ==> LetGo(c.uid, [], w[x], r.world[x]))
  {
    if ListGroups !in c.down {
      ReleaseErrsExactlyWhen(c, [], |c.order|, w);
      if x :| Blocked(c, [], w, x) {
        var i :| 0 <= i < |c.order| && c.order[i] == x;
      }
      if !AfterDeletion(c, w).err {
        ReleasesLetGo(c, [], w);
      }
    }
  }

  /** No wanted group has this object name. */
  ghost predicate Unnamed(c: Pass, x: string) {
    forall j :: 0 <= j < |c.groups| ==> ObjectName(c.groups[j]) != x
  }

  lemma {:induction false} AddsElsewhere(c: Pass, n: nat, s: Adding, x: string)
    requires n <= |c.groups| && x in s.world && Unnamed(c, x)
    ensures x in AfterAdds(c, n, s).world && AfterAdds(c, n, s).world[x] == s.world[x]
  {
    if n > 0 {
      AddsElsewhere(c, n - 1, s, x);
    }
  }

  /** A pass whose list and releases succeed and that goes on holds a reference in every listed group, goes on with
      that group's ID, and has let go of every group it owned whose name it neither lists nor uses. */
  lemma GroupsOutcome(c: Pass, w: World)
    requires Lists(c.order, w) && forall x :: x in w ==> NoRepeats(w[x].owners)
    requires AfterGroups(c, w).verdict.Proceed? && ListGroups !in c.down
    requires forall x :: Release(x) !in c.down
    ensures var o := AfterGroups(c, w);
            && |o.verdict.ids| == |c.groups|
            && (forall j :: 0 <= j < |c.groups| ==>
                  && ObjectName(c.groups[j]) in o.world && c.uid in o.world[ObjectName(c.groups[j])].owners
                  && o.world[ObjectName(c.groups[j])].id == Some(o.verdict.ids[j]))
            && (forall x :: x in w && Unnamed(c, x) ==> x in o.world && LetGo(c.uid, c.groups, w[x], o.world[x]))
  {
    var r := AfterReleases(c, c.groups, |c.order|, Releasing(w, false));
    NoReleaseFails(c, c.groups, |c.order|, w);
    ReleasesLetGo(c, c.groups, w);
    AddsWalk(c, |c.groups|, r.world);
    AddsMatchIds(c, |c.groups|, r.world);
    forall x | x in w && Unnamed(c, x)
      ensures x in AfterGroups(c, w).world && LetGo(c.uid, c.groups, w[x], AfterGroups(c, w).world[x])
    {
      AddsElsewhere(c, |c.groups|, Adding(r.world, [], false), x);
    }
  }
}
