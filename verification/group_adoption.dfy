// The OZGroup controller: create, adopt, forget and re-adopt a remote group by name, and delete it again
// (internal/controller/ozgroup_controller.go).
module GroupAdoption {
  import opened Finalizers
  import opened Slices
  import opened Tables

  const MINUTE := 60

  /** An OZGroup; `deleted` is the second at which its deletion was requested. */
  datatype Object = Object(wanted: string, status: Option<nat>, finalizers: seq<string>, deleted: Option<int>)

  /** OZGroups of all namespaces by UID, remote groups by ID with their names, and the remote groups that the
      server refuses to delete because something still uses them. */
  datatype World = World(objects: map<nat, Object>, groups: Table<string>, linked: set<nat>)

  datatype Call = GetObject | ListGroups | CreateGroup | DeleteGroup | ListObjects | WriteObject | WriteStatus

  /** One pass over the OZGroup `uid`: failing calls, the order in which the server lists groups, the time. */
  datatype Pass = Pass(uid: nat, down: set<Call>, order: seq<nat>, now: int)

  ghost predicate Lists(order: seq<nat>, groups: Table<string>) {
    forall id :: id in order <==> id in groups.rows
  }

  /** The listed group with this name; the last one when there are several. */
  function LastNamed(order: seq<nat>, groups: Table<string>, name: string): (r: Option<nat>)
    requires forall id :: id in order ==> id in groups.rows
    ensures r.Some? ==> r.value in groups.rows && groups.rows[r.value] == name
    ensures r.None? ==> forall id :: id in order ==> groups.rows[id] != name
  {
    if order == [] then None
    else
      var n := |order| - 1;
      if groups.rows[order[n]] == name then Some(order[n]) else LastNamed(order[..n], groups, name)
  }

  /** It is the last listed one of the name, and None only when there is none. */
  lemma {:induction false} LastNamedIsLast(order: seq<nat>, groups: Table<string>, name: string)
    requires forall id :: id in order ==> id in groups.rows
    ensures var r := LastNamed(order, groups, name);
            if r == None then forall i :: 0 <= i < |order| ==> groups.rows[order[i]] != name
            else exists i :: 0 <= i < |order| && order[i] == r.value && groups.rows[order[i]] == name
                   && forall j :: i < j < |order| ==> groups.rows[order[j]] != name
  {
    if order != [] {
      var n := |order| - 1;
      if groups.rows[order[n]] != name {
        LastNamedIsLast(order[..n], groups, name);
      }
    }
  }

  /** The status write that ends a pass without error. */
  function Recorded(c: Pass, id: Option<nat>, w: World): World
    requires c.uid in w.objects
  {
    if WriteStatus in c.down then w
    else w.(objects := w.objects[c.uid := w.objects[c.uid].(status := id)])
  }

  ghost function AfterSync(c: Pass, w: World): World
    requires c.uid in w.objects && Lists(c.order, w.groups)
  {
    var o := w.objects[c.uid];
    if ListGroups in c.down then w
    else
      var found := LastNamed(c.order, w.groups, o.wanted);
      if found.Some? then Recorded(c, found, w)
      else if o.status.Some? then Recorded(c, None, w)
      else if CreateGroup in c.down then w
      else Recorded(c, Some(w.groups.next), w.(groups := w.groups.Add(o.wanted)))
  }

  datatype Answer = Done | NotFound | Linked | Error

  function Answered(c: Pass, id: nat, w: World): Answer {
    if DeleteGroup in c.down then Error
    else if id !in w.groups.rows then NotFound
    else if id in w.linked then Linked
    else Done
  }

  /** Another OZGroup records the same remote group. */
  predicate Shared(uid: nat, id: nat, objects: map<nat, Object>) {
    exists u :: u in objects && u != uid && objects[u].status == Some(id)
  }

  predicate InTime(c: Pass, o: Object) {
    o.deleted.Some? && c.now <= o.deleted.value + MINUTE
  }

  /** The finalizer goes; the OZGroup goes with its last finalizer. */
  function Released(c: Pass, w: World): World
    requires c.uid in w.objects
  {
    if WriteObject in c.down then w
    else
      var left := Drop(w.objects[c.uid].finalizers, {GROUP_CLEANUP});
      if left == [] then w.(objects := w.objects - {c.uid})
      else w.(objects := w.objects[c.uid := w.objects[c.uid].(finalizers := left)])
  }

  function AfterDelete(c: Pass, w: World): World
    requires c.uid in w.objects
  {
    var o := w.objects[c.uid];
    if o.finalizers == [] then w
    else if o.status == None then Released(c, w)
    else
      var id := o.status.value;
      match Answered(c, id, w)
      case Error => w
      case NotFound => Released(c, w)
      case Done => Released(c, w.(groups := w.groups.Drop(id)))
      case Linked =>
        if InTime(c, o) && (ListObjects in c.down || !Shared(c.uid, id, w.objects)) then w else Released(c, w)
  }

  ghost function AfterPass(c: Pass, w: World): World
    requires Lists(c.order, w.groups)
  {
    if GetObject in c.down || c.uid !in w.objects then w
    else if w.objects[c.uid].deleted.Some? then AfterDelete(c, w)
    else AfterSync(c, w)
  }

  class GroupReconciler {
    var objects: map<nat, Object>
    var groups: Table<string>
    var linked: set<nat>

    constructor (w: World)
      ensures State() == w
    {
      objects, groups, linked := w.objects, w.groups, w.linked;
    }

    function State(): World
      reads this
    {
      World(objects, groups, linked)
    }

    /** The loop over the server's list. */
    method FindGroup(order: seq<nat>, name: string) returns (found: Option<nat>)
      requires forall id :: id in order ==> id in groups.rows
      ensures found == LastNamed(order, groups, name)
    {
      found := None;
      for i := 0 to |order|
        invariant found == LastNamed(order[..i], groups, name)
      {
        assert order[..i + 1][..i] == order[..i];
        if groups.rows[order[i]] == name {
          found := Some(order[i]);
        }
      }
      assert order[..|order|] == order;
    }

    method WriteBack(c: Pass, id: Option<nat>) returns (err: bool)
      requires c.uid in objects
      modifies this`objects
      ensures State() == Recorded(c, id, old(State()))
      ensures err == (WriteStatus in c.down)
    {
      if WriteStatus in c.down {
        return true;
      }
      objects := objects[c.uid := objects[c.uid].(status := id)];
      return false;
    }

    method SyncGroup(c: Pass) returns (err: bool)
      requires c.uid in objects && Lists(c.order, groups)
      modifies this
      ensures State() == AfterSync(c, old(State()))
    {
      var o := objects[c.uid];
      if ListGroups in c.down {
        return true;
      }
      var found := FindGroup(c.order, o.wanted);
      var status := o.status;
      if status == None && found == None {
        if CreateGroup in c.down {
          return true;
        }
        status := Some(groups.next);
        groups := groups.Add(o.wanted);
      } else if status == None {
        status := found;
      } else if found == None {
        status := None;
        err := WriteBack(c, status);
        return;
      }
      if status != None && found != None && status.value != found.value {
        status := found;
      }
      err := WriteBack(c, status);
    }

    method RemoveFinalizer(c: Pass) returns (err: bool)
      requires c.uid in objects
      modifies this`objects
      ensures State() == Released(c, old(State()))
      ensures err == (WriteObject in c.down)
    {
      var left := Without(objects[c.uid].finalizers, GROUP_CLEANUP);
      if WriteObject in c.down {
        return true;
      }
      if left == [] {
        objects := objects - {c.uid};
      } else {
        objects := objects[c.uid := objects[c.uid].(finalizers := left)];
      }
      return false;
    }

    /** The search for another OZGroup over the same remote group. */
    method FindSharer(uid: nat, id: nat) returns (found: bool)
      ensures found == Shared(uid, id, objects)
    {
      var rest := objects.Keys;
      while rest != {}
        invariant rest <= objects.Keys
        invariant forall u :: u in objects && u !in rest && u != uid ==> objects[u].status != Some(id)
      {
        var u :| u in rest;
        rest := rest - {u};
        if u != uid && objects[u].status == Some(id) {
          return true;
        }
      }
      return false;
    }

    method HandleDelete(c: Pass) returns (err: bool)
      requires c.uid in objects && objects[c.uid].deleted.Some? && objects[c.uid].finalizers != []
      modifies this
      ensures State() == AfterDelete(c, old(State()))
    {
      var o := objects[c.uid];
      if o.status == None {
        err := RemoveFinalizer(c);
        return;
      }
      var id := o.status.value;
      var answer := Answered(c, id, State());
      if answer.Done? {
        groups := groups.Drop(id);
      }
      if answer.Error? {
        return true;
      }
      if answer.Linked? && c.now <= o.deleted.value + MINUTE {
        if ListObjects in c.down {
          return true;
        }
        var shared := FindSharer(c.uid, id);
        if shared {
          err := RemoveFinalizer(c);
          return;
        }
        return true;
      }
      err := RemoveFinalizer(c);
    }

    method Reconcile(c: Pass) returns (err: bool)
      requires Lists(c.order, groups)
      modifies this
      ensures State() == AfterPass(c, old(State()))
    {
      if GetObject in c.down || c.uid !in objects {
        return false;
      }
      if objects[c.uid].deleted != None {
        if |objects[c.uid].finalizers| == 0 {
          return false;
        }
        err := HandleDelete(c);
        return;
      }
      err := SyncGroup(c);
    }
  }

  // ----- unique names -----

  ghost predicate UniqueNames(groups: Table<string>) {
    forall i, j :: i in groups.rows && j in groups.rows && groups.rows[i] == groups.rows[j] ==> i == j
  }

  /** Everybody but the passes: OZGroups come, change, get deleted or go; remote groups get linked, unlinked or
      deleted, but nobody else creates one. */
  ghost predicate Environment(w: World, v: World) {
    && v.groups.next >= w.groups.next
    && (forall id :: id in v.groups.rows ==> id in w.groups.rows && v.groups.rows[id] == w.groups.rows[id])
    && (forall u :: u in w.objects && u in v.objects ==> v.objects[u].status == w.objects[u].status)
  }

  /** Step i of a run: a pass, or None for the environment. */
  ghost predicate Step(p: Option<Pass>, w: World, v: World) {
    match p
    case None => Environment(w, v)
    case Some(c) => Lists(c.order, w.groups) && v == AfterPass(c, w)
  }

  ghost predicate Trace(ps: seq<Option<Pass>>, ws: seq<World>) {
    |ws| == |ps| + 1 && forall i :: 0 <= i < |ps| ==> Step(ps[i], ws[i], ws[i + 1])
  }

  lemma StepKeepsNamesUnique(p: Option<Pass>, w: World, v: World)
    requires UniqueNames(w.groups) && Step(p, w, v)
    ensures UniqueNames(v.groups)
  {
    if p.Some? && v.groups.rows.Keys != w.groups.rows.Keys && w.groups.next in v.groups.rows {
      assert forall id :: id in w.groups.rows ==> id in p.value.order;
    }
  }

  /** Whatever fails: a pass over a live object makes a remote group exactly when it finds none of the name, records
      none and the call succeeds; it records exactly what it found, made or forgot, and only if its status write
      succeeds. */
  lemma RecordsExactlyWhen(c: Pass, w: World)
    requires c.uid in w.objects && w.objects[c.uid].deleted == None && Lists(c.order, w.groups)
    ensures var o, v := w.objects[c.uid], AfterPass(c, w);
            var reached := c.down !! {GetObject, ListGroups};
            var named := exists id :: id in w.groups.rows && w.groups.rows[id] == o.wanted;
            var makes := reached && !named && o.status == None && CreateGroup !in c.down;
            && v.groups == (if makes then w.groups.Add(o.wanted) else w.groups)
            && v.objects.Keys == w.objects.Keys
            && (forall u :: u in w.objects && u != c.uid ==> v.objects[u] == w.objects[u])
            && v.objects[c.uid] == o.(status := v.objects[c.uid].status)
            && (if !reached || WriteStatus in c.down then v.objects[c.uid].status == o.status
                else if named then Holds(w, v.objects[c.uid].status, o.wanted)
                else v.objects[c.uid].status == if makes then Some(w.groups.next) else None)
  {
    var o := w.objects[c.uid];
    assert forall id :: id in w.groups.rows && w.groups.rows[id] == o.wanted ==> id in c.order;
    assert (exists id :: id in w.groups.rows && w.groups.rows[id] == o.wanted)
      <==> LastNamed(c.order, w.groups, o.wanted).Some?;
  }

  /** Remote group names stay unique over any interleaving of passes of any OZGroups, whatever fails. */
  lemma {:induction false} NamesStayUnique(ps: seq<Option<Pass>>, ws: seq<World>)
    requires Trace(ps, ws) && UniqueNames(ws[0].groups)
    ensures UniqueNames(ws[|ps|].groups)
  {
    if ps != [] {
      var n := |ps| - 1;
      NamesStayUnique(ps[..n], ws[..n + 1]);
      StepKeepsNamesUnique(ps[n], ws[n], ws[n + 1]);
    }
  }

  // ----- agreement -----

  predicate Clean(p: Option<Pass>, uid: nat) {
    p.Some? && p.value.uid == uid && p.value.down == {}
  }

  function CleanPasses(ps: seq<Option<Pass>>, uid: nat): nat {
    if ps == [] then 0
    else CleanPasses(ps[..|ps| - 1], uid) + if Clean(ps[|ps| - 1], uid) then 1 else 0
  }

  /** The OZGroup exists, is not being deleted, and wants this name. */
  predicate Wants(w: World, uid: nat, name: string) {
    uid in w.objects && w.objects[uid].deleted == None && w.objects[uid].wanted == name
  }

  ghost predicate Holds(w: World, id: Option<nat>, name: string) {
    w.groups.Live(id) && w.groups.rows[id.value] == name
  }

  /** No remote group of this name is lost in the step. */
  ghost predicate KeepsNamed(w: World, v: World, name: string) {
    forall id :: id in w.groups.rows && w.groups.rows[id] == name ==> id in v.groups.rows
  }

  /** How far an OZGroup has come after n clean passes of its own. */
  ghost predicate Progress(n: nat, w: World, uid: nat, name: string) {
    && uid in w.objects
    && (n == 1 ==> w.objects[uid].status == None || Holds(w, w.objects[uid].status, name))
    && (n >= 2 ==> Holds(w, w.objects[uid].status, name))
  }

  lemma OwnStep(n: nat, c: Pass, w: World, name: string)
    requires Wants(w, c.uid, name) && Progress(n, w, c.uid, name)
    requires Lists(c.order, w.groups) && UniqueNames(w.groups)
    ensures Progress(if c.down == {} then n + 1 else n, AfterPass(c, w), c.uid, name)
  {
  }

  lemma OtherStep(n: nat, p: Option<Pass>, w: World, v: World, uid: nat, name: string)
    requires Wants(w, uid, name) && Wants(v, uid, name) && Progress(n, w, uid, name)
    requires Step(p, w, v) && KeepsNamed(w, v, name) && (p.Some? ==> p.value.uid != uid)
    ensures Progress(n, v, uid, name)
  {
    assert v.objects[uid].status == w.objects[uid].status;
  }

  /** An OZGroup that keeps wanting a name while no remote group of that name is lost holds it after two
      clean passes of its own, whatever else runs or fails in between. */
  lemma {:induction false} TwoPassesHold(ps: seq<Option<Pass>>, ws: seq<World>, uid: nat, name: string)
    requires Trace(ps, ws) && UniqueNames(ws[0].groups)
    requires forall i :: 0 <= i <= |ps| ==> Wants(ws[i], uid, name)
    requires forall i :: 0 <= i < |ps| ==> KeepsNamed(ws[i], ws[i + 1], name)
    ensures Progress(CleanPasses(ps, uid), ws[|ps|], uid, name)
  {
    if ps != [] {
      var n := |ps| - 1;
      TwoPassesHold(ps[..n], ws[..n + 1], uid, name);
      NamesStayUnique(ps[..n], ws[..n + 1]);
      assert Wants(ws[n], uid, name) && Wants(ws[n + 1], uid, name) && Step(ps[n], ws[n], ws[n + 1]);
      if ps[n].Some? && ps[n].value.uid == uid {
        OwnStep(CleanPasses(ps[..n], uid), ps[n].value, ws[n], name);
      } else {
        OtherStep(CleanPasses(ps[..n], uid), ps[n], ws[n], ws[n + 1], uid, name);
      }
    }
  }

  /** OZGroups of one name, in any namespaces, agree on one live remote group after two clean passes each. */
  lemma NamesakesAgree(ps: seq<Option<Pass>>, ws: seq<World>, uids: set<nat>, name: string)
    requires Trace(ps, ws) && UniqueNames(ws[0].groups)
    requires forall i, u :: 0 <= i <= |ps| && u in uids ==> Wants(ws[i], u, name)
    requires forall i :: 0 <= i < |ps| ==> KeepsNamed(ws[i], ws[i + 1], name)
    requires forall u :: u in uids ==> CleanPasses(ps, u) >= 2
    ensures forall u :: u in uids ==> u in ws[|ps|].objects && Holds(ws[|ps|], ws[|ps|].objects[u].status, name)
    ensures forall u, v :: u in uids && v in uids ==> ws[|ps|].objects[u].status == ws[|ps|].objects[v].status
  {
    NamesStayUnique(ps, ws);
    forall u | u in uids ensures u in ws[|ps|].objects && Holds(ws[|ps|], ws[|ps|].objects[u].status, name) {
      TwoPassesHold(ps, ws, u, name);
    }
  }

  // ----- deletion -----

  /** A deletion pass takes the finalizer away exactly when the object can be written and the remote group was
      never recorded, is gone or goes now, or is linked and either shared or out of patience. */
  lemma FinalizerGoesExactlyWhen(c: Pass, w: World)
    requires c.uid in w.objects && w.objects[c.uid].deleted.Some? && GROUP_CLEANUP in w.objects[c.uid].finalizers
    requires Lists(c.order, w.groups) && GetObject !in c.down
    ensures var v := AfterPass(c, w);
            c.uid in v.objects && v.objects[c.uid] != w.objects[c.uid] ==>
              && v.objects[c.uid] == w.objects[c.uid].(finalizers := v.objects[c.uid].finalizers)
              && v.objects[c.uid].finalizers != []
              && forall f :: f in v.objects[c.uid].finalizers <==>
                             f in w.objects[c.uid].finalizers && f != "openzro.io/group-cleanup"
    ensures var v := AfterPass(c, w);
            c.uid !in v.objects ==> forall f :: f in w.objects[c.uid].finalizers ==> f == "openzro.io/group-cleanup"
    ensures var o := w.objects[c.uid];
            var v := AfterPass(c, w);
            (c.uid !in v.objects || GROUP_CLEANUP !in v.objects[c.uid].finalizers) <==>
            (&& WriteObject !in c.down
             && (o.status.Some? ==>
                   && DeleteGroup !in c.down
                   && (w.groups.Live(o.status) && o.status.value in w.linked && c.now <= o.deleted.value + 60 ==>
                         && ListObjects !in c.down
                         && exists u :: u in w.objects && u != c.uid && w.objects[u].status == o.status)))
  {
    forall f ensures f in Drop(w.objects[c.uid].finalizers, {GROUP_CLEANUP}) <==>
                     f in w.objects[c.uid].finalizers && f !in {GROUP_CLEANUP} {
      DropMembers(w.objects[c.uid].finalizers, {GROUP_CLEANUP}, f);
    }
    assert GROUP_CLEANUP == "openzro.io/group-cleanup";
  }

  /** A pass deletes at most the recorded remote group, and only when it is not linked; that another OZGroup
      still records it does not protect it. */
  lemma DeletesExactlyWhen(c: Pass, w: World)
    requires Lists(c.order, w.groups)
    ensures forall id :: id in w.groups.rows ==>
              (id !in AfterPass(c, w).groups.rows <==>
               (&& c.uid in w.objects && w.objects[c.uid].deleted.Some? && w.objects[c.uid].finalizers != []
                && w.objects[c.uid].status == Some(id) && id !in w.linked && c.down * {GetObject, DeleteGroup} == {}))
  {
    assert GetObject in c.down ==> GetObject in c.down * {GetObject, DeleteGroup};
    assert DeleteGroup in c.down ==> DeleteGroup in c.down * {GetObject, DeleteGroup};
  }

  /** An OZGroup whose namesake took the remote group with it gets a fresh one in two clean passes. */
  lemma NamesakeRecovers(c: Pass, d: Pass, e: Pass, w: World)
    requires UniqueNames(w.groups) && Lists(c.order, w.groups) && c.uid in w.objects && d.uid == e.uid != c.uid
    requires w.objects[c.uid].deleted.Some? && w.objects[c.uid].finalizers != [] && c.down == d.down == e.down == {}
    requires w.groups.Live(w.objects[c.uid].status) && w.objects[c.uid].status.value !in w.linked
    requires Wants(w, d.uid, w.groups.rows[w.objects[c.uid].status.value])
    requires w.objects[d.uid].status == w.objects[c.uid].status
    requires Lists(d.order, AfterPass(c, w).groups)
    requires Lists(e.order, AfterPass(d, AfterPass(c, w)).groups)
    ensures var v := AfterPass(e, AfterPass(d, AfterPass(c, w)));
            var name := w.objects[d.uid].wanted;
            && w.objects[c.uid].status.value !in v.groups.rows
            && Wants(v, d.uid, name) && v.objects[d.uid].status == Some(w.groups.next)
            && Holds(v, v.objects[d.uid].status, name)
  {
    var gone := AfterPass(c, w);
    assert w.objects[c.uid].status.value !in gone.groups.rows;
    assert Wants(gone, d.uid, w.objects[d.uid].wanted);
    var forgot := AfterPass(d, gone);
    assert forgot.groups == gone.groups && forgot.objects[d.uid].status == None;
  }
}
