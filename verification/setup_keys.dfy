// The v1alpha1 SetupKey controller: validity check and make-before-break rotation
// (internal/controller/setupkey_controller.go).
module SetupKeys {
  import opened GroupRefs
  import opened Tables

  datatype KeyState = Valid | Overused | Unusable

  datatype RemoteKey = RemoteKey(plain: string, state: KeyState, groups: seq<nat>)

  /** A SetupKey obj. */
  datatype Object = Object(status: Option<nat>, refs: seq<Ref>, finalizer: bool, deleting: bool)

  /** secret is None when the Secret is missing and Some(None) when it lacks the entry. */
  datatype World = World(obj: Option<Object>, secret: Option<Option<string>>, keys: Table<RemoteKey>)

  datatype Call =
    | GetObject | Lookup(n: nat) | PatchFinalizer | GetKey | GetSecret | UpdateKey
    | CreateKey | PatchStatus | ApplySecret | DeleteOld | PatchReady | DeleteKey

  /** One pass: failing calls and the plaintext the server would give a new key. */
  datatype Pass = Pass(down: set<Call>, plain: string)

  ghost function LookupsDown(c: Pass, refs: seq<Ref>): set<nat> {
    set n | 0 <= n < |refs| && Lookup(n) in c.down
  }

  datatype Check = UpToDate | Outdated | Failed

  /** The five-character comparison of the check; it panics on shorter strings. */
  predicate Comparable(plain: string, entry: Option<string>) {
    |plain| >= 5 && entry.Some? && |entry.value| >= 5
  }

  /** The closure that decides whether the recorded key can stay. */
  function Checked(c: Pass, w: World, status: Option<nat>): Check {
    if status == None then Outdated
    else if GetKey in c.down then Failed
    else if status.value !in w.keys.rows then Outdated
    else
      var k := w.keys.rows[status.value];
      match k.state
      case Overused => Failed
      case Unusable => Outdated
      case Valid =>
        if GetSecret in c.down then Failed
        else if w.secret == None then Outdated
        else if !Comparable(k.plain, w.secret.value) then Failed
        else if k.plain[..5] != w.secret.value.value[..5] then Outdated
        else if UpdateKey in c.down then Failed
        else UpToDate
  }

  /** Create the new key, record it, hand it out, and only then delete the old one. */
  function Rotated(c: Pass, groups: seq<nat>, w: World): World
    requires w.obj.Some?
  {
    var before := w.obj.value.status;
    if CreateKey in c.down then w
    else
      var id := w.keys.next;
      var made := w.(keys := w.keys.Add(RemoteKey(c.plain, Valid, groups)));
      if PatchStatus in c.down then made
      else
        var named := made.(obj := Some(w.obj.value.(status := Some(id))));
        if ApplySecret in c.down then named
        else
          var handed := named.(secret := Some(Some(c.plain)));
          if before == None || DeleteOld in c.down then handed else handed.(keys := handed.keys.Drop(before.value))
  }

  ghost function AfterSync(c: Pass, d: Directory, w: World): World
    requires w.obj.Some?
  {
    var o := w.obj.value;
    if !Resolves(d, o.refs, LookupsDown(c, o.refs)) || PatchFinalizer in c.down then w
    else
      var v := w.(obj := Some(o.(finalizer := true)));
      var groups := Targets(d, o.refs);
      match Checked(c, v, o.status)
      case Failed => v
      case UpToDate => v.(keys := v.keys.Put(o.status.value, v.keys.rows[o.status.value].(groups := groups)))
      case Outdated => Rotated(c, groups, v)
  }

  function AfterDelete(c: Pass, w: World): World
    requires w.obj.Some?
  {
    var o := w.obj.value;
    if o.status.Some? && DeleteKey in c.down then w
    else
      var v := if o.status.Some? then w.(keys := w.keys.Drop(o.status.value)) else w;
      if PatchFinalizer in c.down then v else v.(obj := None)
  }

  ghost function AfterPass(c: Pass, d: Directory, w: World): World {
    if GetObject in c.down || w.obj == None then w
    else if w.obj.value.deleting then AfterDelete(c, w)
    else AfterSync(c, d, w)
  }

  class SetupKeyReconciler {
    var obj: Option<Object>
    var secret: Option<Option<string>>
    var keys: Table<RemoteKey>

    constructor (w: World)
      ensures State() == w
    {
      obj, secret, keys := w.obj, w.secret, w.keys;
    }

    function State(): World
      reads this
    {
      World(obj, secret, keys)
    }

    method CheckKey(c: Pass, status: Option<nat>, groups: seq<nat>) returns (check: Check)
      modifies this`keys
      ensures check == Checked(c, old(State()), status)
      ensures keys == if check == UpToDate
                      then old(keys).Put(status.value, old(keys).rows[status.value].(groups := groups)) else old(keys)
    {
      if status == None {
        return Outdated;
      }
      if GetKey in c.down {
        return Failed;
      }
      if status.value !in keys.rows {
        return Outdated;
      }
      var k := keys.rows[status.value];
      match k.state {
        case Overused => return Failed;
        case Unusable => return Outdated;
        case Valid =>
      }
      if GetSecret in c.down {
        return Failed;
      }
      if secret == None {
        return Outdated;
      }
      if |k.plain| < 5 || secret.value == None || |secret.value.value| < 5 {
        // slicing to five characters panics
        return Failed;
      }
      if k.plain[..5] != secret.value.value[..5] {
        return Outdated;
      }
      if UpdateKey in c.down {
        return Failed;
      }
      keys := keys.Put(status.value, k.(groups := groups));
      return UpToDate;
    }

    method Rotate(c: Pass, groups: seq<nat>) returns (err: bool)
      requires obj.Some?
      modifies this
      ensures State() == Rotated(c, groups, old(State()))
    {
      var oldId := obj.value.status;
      if CreateKey in c.down {
        return true;
      }
      var id := keys.next;
      keys := keys.Add(RemoteKey(c.plain, Valid, groups));
      if PatchStatus in c.down {
        return true;
      }
      obj := Some(obj.value.(status := Some(id)));
      if ApplySecret in c.down {
        return true;
      }
      secret := Some(Some(c.plain));
      if oldId != None {
        if DeleteOld in c.down {
          return true;
        }
        keys := keys.Drop(oldId.value);
      }
      return PatchReady in c.down;
    }

    method Reconcile(c: Pass, d: Directory) returns (err: bool)
      modifies this
      ensures State() == AfterPass(c, d, old(State()))
    {
      if GetObject in c.down || obj == None {
        return GetObject in c.down;
      }
      var o := obj.value;
      if o.deleting {
        if o.status != None {
          if DeleteKey in c.down {
            return true;
          }
          keys := keys.Drop(o.status.value);
        }
        if PatchFinalizer in c.down {
          return true;
        }
        obj := None;
        return false;
      }
      var lookups := set n | 0 <= n < |o.refs| && Lookup(n) in c.down;
      var groups := GetGroupIds(d, o.refs, lookups);
      if groups == None || PatchFinalizer in c.down {
        return true;
      }
      obj := Some(o.(finalizer := true));
      var check := CheckKey(c, o.status, groups.value);
      match check {
        case Failed => return true;
        case UpToDate => return false;
        case Outdated =>
          err := Rotate(c, groups.value);
      }
    }
  }

  // ----- make before break -----

  /** The key the Secret hands out exists on the server. */
  ghost predicate HandedOutLives(w: World) {
    && (w.obj.Some? && w.obj.value.status.Some? ==> w.obj.value.status.value < w.keys.next)
    && (w.secret.Some? && w.secret.value.Some? ==>
          exists id :: id in w.keys.rows && w.keys.rows[id].plain == w.secret.value.value)
  }

  lemma PassKeepsHandedOut(c: Pass, d: Directory, w: World)
    requires HandedOutLives(w) && (w.obj.Some? ==> !w.obj.value.deleting)
    ensures HandedOutLives(AfterPass(c, d, w))
    ensures w.obj.Some? ==> AfterPass(c, d, w).obj.Some? && !AfterPass(c, d, w).obj.value.deleting
  {
    var v := AfterPass(c, d, w);
    if v.secret.Some? && v.secret.value.Some? && v != w {
      if v.secret == w.secret {
        var id :| id in w.keys.rows && w.keys.rows[id].plain == w.secret.value.value;
        if id in v.keys.rows {
          assert v.keys.rows[id].plain == w.secret.value.value;
        } else {
          assert w.keys.next in v.keys.rows && v.keys.rows[w.keys.next].plain == c.plain;
        }
      } else {
        assert w.keys.next in v.keys.rows && v.keys.rows[w.keys.next].plain == c.plain;
      }
    }
  }

  /** Between passes: keys may expire, be overused, be revoked or be added by others, the Secret or its entry
      may be dropped, the spec may change; nobody else deletes keys, or the object. */
  ghost predicate Environment(w: World, v: World) {
    && (v.obj.Some? <==> w.obj.Some?)
    && (w.obj.Some? ==> v.obj.value.status == w.obj.value.status && !v.obj.value.deleting)
    && v.secret in {w.secret, None, Some(None)}
    && v.keys.next >= w.keys.next
    && (forall id :: id in w.keys.rows ==> id in v.keys.rows && v.keys.rows[id].plain == w.keys.rows[id].plain)
  }

  /** Cut each pass at whatever calls you like, resume as often as you like: the key in the Secret is always
      one that still exists on the server. */
  lemma {:induction false} MakeBeforeBreak(ws: seq<World>, passes: seq<(Pass, Directory)>)
    requires |ws| == |passes| + 1 && HandedOutLives(ws[0])
    requires ws[0].obj.Some? ==> !ws[0].obj.value.deleting
    requires forall i :: 0 <= i < |passes| ==>
               ws[i + 1] == AfterPass(passes[i].0, passes[i].1, ws[i]) || Environment(ws[i], ws[i + 1])
    ensures HandedOutLives(ws[|passes|])
    ensures ws[|passes|].obj.Some? ==> !ws[|passes|].obj.value.deleting
  {
    if passes != [] {
      var n := |passes| - 1;
      MakeBeforeBreak(ws[..n + 1], passes[..n]);
      if ws[n + 1] == AfterPass(passes[n].0, passes[n].1, ws[n]) {
        PassKeepsHandedOut(passes[n].0, passes[n].1, ws[n]);
      } else if ws[n + 1].secret.Some? && ws[n + 1].secret.value.Some? {
        var id :| id in ws[n].keys.rows && ws[n].keys.rows[id].plain == ws[n].secret.value.value;
        assert id in ws[n + 1].keys.rows && ws[n + 1].keys.rows[id].plain == ws[n + 1].secret.value.value;
      }
    }
  }

  // ----- what a clean pass achieves -----

  /** Plaintext and entry agree in their first five characters, and have them. */
  ghost predicate SameStart(plain: string, entry: string) {
    |plain| >= 5 && |entry| >= 5 && entry[..5] == plain[..5]
  }

  /** Recorded key usable and handed out, up to the five characters the check compares. */
  ghost predicate Current(w: World, groups: seq<nat>) {
    && w.obj.Some? && w.keys.Live(w.obj.value.status)
    && var k := w.keys.rows[w.obj.value.status.value];
    && k.state == Valid && k.groups == groups
    && w.secret.Some? && w.secret.value.Some?
    && (w.secret.value.value == k.plain || SameStart(k.plain, w.secret.value.value))
  }

  /** States the check gives up on: an overused key, or strings too short to compare. */
  ghost predicate Stuck(w: World) {
    && w.obj.Some? && w.keys.Live(w.obj.value.status)
    && var k := w.keys.rows[w.obj.value.status.value];
    || k.state == Overused
    || (k.state == Valid && w.secret.Some?
        && (|k.plain| < 5 || w.secret.value == None || |w.secret.value.value| < 5))
  }

  /** The recorded key can stay: valid, and handed out as far as the check can see. */
  ghost predicate CanStay(w: World) {
    && w.obj.Some? && w.keys.Live(w.obj.value.status)
    && w.keys.rows[w.obj.value.status.value].state == Valid
    && w.secret.Some? && w.secret.value.Some?
    && SameStart(w.keys.rows[w.obj.value.status.value].plain, w.secret.value.value)
  }

  /** A clean pass keeps a key that can stay and brings its groups up to date, gives up on a stuck one, and otherwise
      replaces the key: a new one is recorded and handed out, and the old one is gone. */
  lemma CleanPassOutcome(c: Pass, d: Directory, w: World)
    requires c.down == {} && w.obj.Some? && !w.obj.value.deleting && Resolves(d, w.obj.value.refs, {})
    requires w.obj.value.status.Some? ==> w.obj.value.status.value < w.keys.next
    ensures var v := AfterPass(c, d, w);
            var groups := Targets(d, w.obj.value.refs);
            var status := w.obj.value.status;
            && v.obj.Some? && v.obj.value == w.obj.value.(finalizer := true, status := v.obj.value.status)
            && (if Stuck(w) then v.keys == w.keys && v.secret == w.secret && v.obj.value.status == status
                else if CanStay(w) then
                  && v.secret == w.secret && v.obj.value.status == status && v.keys.next == w.keys.next
                  && v.keys.rows == w.keys.rows[status.value := w.keys.rows[status.value].(groups := groups)]
                else
                  && v.secret == Some(Some(c.plain)) && v.obj.value.status == Some(w.keys.next)
                  && v.keys.rows == w.keys.rows[w.keys.next := RemoteKey(c.plain, Valid, groups)] - Ids(status))
            && (!Stuck(w) ==> Current(v, groups))
  {
    assert LookupsDown(c, w.obj.value.refs) == {};
  }

  /** A deletion pass lets the object go exactly when its calls succeed; the recorded key is gone by then, and no other
      key is touched. */
  lemma DeletionOutcome(c: Pass, d: Directory, w: World)
    requires w.obj.Some? && w.obj.value.deleting && GetObject !in c.down
    ensures var v := AfterPass(c, d, w);
            var status := w.obj.value.status;
            && (v.obj == None <==> (status.Some? ==> DeleteKey !in c.down) && PatchFinalizer !in c.down)
            && (v.obj.Some? ==> v.obj == w.obj) && v.secret == w.secret
            && v.keys.rows == if DeleteKey in c.down then w.keys.rows else w.keys.rows - Ids(status)
  {
  }

  /** Keys on the server that the status does not name. */
  ghost function Orphans(w: World): set<nat> {
    w.keys.rows.Keys - if w.obj.Some? then Ids(w.obj.value.status) else {}
  }

  /** The pass rotates the key: everything before the creation went well and the check found it outdated. */
  ghost predicate Rotates(c: Pass, d: Directory, w: World) {
    && GetObject !in c.down && w.obj.Some? && !w.obj.value.deleting
    && Resolves(d, w.obj.value.refs, LookupsDown(c, w.obj.value.refs)) && PatchFinalizer !in c.down
    && Checked(c, w, w.obj.value.status) == Outdated
  }

  /** The rotation leaves a key behind: the new one was not recorded, or a live old one was not deleted. */
  predicate LosesKey(c: Pass, w: World)
    requires w.obj.Some?
  {
    && CreateKey !in c.down
    && (PatchStatus in c.down || (w.keys.Live(w.obj.value.status) && (ApplySecret in c.down || DeleteOld in c.down)))
  }

  ghost predicate Loses(c: Pass, d: Directory, w: World) {
    Rotates(c, d, w) && LosesKey(c, w)
  }

  ghost predicate Issued(w: World) {
    w.obj.Some? && w.obj.value.status.Some? ==> w.obj.value.status.value < w.keys.next
  }

  /** A new key k joins and takes over the name; the old one stays or goes. */
  lemma NameMoves(before: set<nat>, after: set<nat>, status: Option<nat>, k: nat)
    requires k !in before && (after == before + {k} || after == before + {k} - Ids(status))
    requires status.Some? ==> status.value != k
    ensures var more := (after - {k}) - (before - Ids(status));
            |more| <= 1 && (more != {} <==> status.Some? && status.value in after)
  {
    var more := (after - {k}) - (before - Ids(status));
    assert more <= Ids(status);
    if status.Some? {
      assert status.value in more <==> status.value in after;
      Singleton(more, status.value);
    }
  }

  lemma UnnamedJoins(before: set<nat>, status: Option<nat>, k: nat)
    requires k !in before && (status.Some? ==> status.value != k)
    ensures (before + {k} - Ids(status)) - (before - Ids(status)) == {k}
  {
  }

  /** What a rotation does to keys and name. */
  ghost predicate RotatedShape(c: Pass, w: World, v: World)
    requires w.obj.Some?
  {
    var status := w.obj.value.status;
    var before, after := w.keys.rows.Keys, v.keys.rows.Keys;
    && v.obj.Some?
    && if CreateKey in c.down then after == before && v.obj.value.status == status
       else if PatchStatus in c.down then after == before + {w.keys.next} && v.obj.value.status == status
       else && v.obj.value.status == Some(w.keys.next)
            && after == if ApplySecret in c.down || DeleteOld in c.down then before + {w.keys.next}
                        else before + {w.keys.next} - Ids(status)
  }

  lemma RotatedIsShape(c: Pass, groups: seq<nat>, w: World)
    requires w.obj.Some? && Issued(w)
    ensures RotatedShape(c, w, Rotated(c, groups, w))
  {
  }

  lemma ShapeOrphans(c: Pass, w: World, v: World)
    requires w.obj.Some? && Issued(w) && RotatedShape(c, w, v)
    ensures var more := Orphans(v) - Orphans(w);
            |more| <= 1 && (more != {} <==> LosesKey(c, w))
  {
    var status := w.obj.value.status;
    var before, after := w.keys.rows.Keys, v.keys.rows.Keys;
    if CreateKey in c.down {
      assert Orphans(v) - Orphans(w) == {};
    } else if PatchStatus in c.down {
      UnnamedJoins(before, status, w.keys.next);
    } else {
      NameMoves(before, after, status, w.keys.next);
    }
  }

  lemma RotatedOrphans(c: Pass, groups: seq<nat>, w: World)
    requires w.obj.Some? && Issued(w)
    ensures var more := Orphans(Rotated(c, groups, w)) - Orphans(w);
            |more| <= 1 && (more != {} <==> LosesKey(c, w))
  {
    RotatedIsShape(c, groups, w);
    ShapeOrphans(c, w, Rotated(c, groups, w));
  }

  function Marked(w: World): World
    requires w.obj.Some?
  {
    w.(obj := Some(w.obj.value.(finalizer := true)))
  }

  lemma PassShape(c: Pass, d: Directory, w: World)
    requires w.obj.Some? ==> !w.obj.value.deleting
    ensures var v := AfterPass(c, d, w);
            if Rotates(c, d, w) then v == Rotated(c, Targets(d, w.obj.value.refs), Marked(w))
                else Orphans(v) == Orphans(w)
    ensures w.obj.Some? ==> Orphans(Marked(w)) == Orphans(w)
  {
  }

  /** A pass leaves more keys behind exactly when it rotates and loses one, and then just one. */
  lemma RotationOrphansExactlyWhen(c: Pass, d: Directory, w: World)
    requires Issued(w)
    ensures var more := Orphans(AfterPass(c, d, w)) - Orphans(w);
            && |more| <= 1
            && (more != {} <==> Loses(c, d, w))
  {
    if w.obj.Some? && w.obj.value.deleting {
      assert Orphans(AfterDelete(c, w)) <= Orphans(w);
      assert Orphans(AfterPass(c, d, w)) - Orphans(w) == {};
    } else {
      PassShape(c, d, w);
      if Rotates(c, d, w) {
        RotatedOrphans(c, Targets(d, w.obj.value.refs), Marked(w));
      } else {
        assert Orphans(AfterPass(c, d, w)) - Orphans(w) == {};
      }
    }
  }

  // ----- orphans over runs -----

  datatype Step = Outside | Run(pass: Pass, groups: Directory)

  /** Others make and delete keys, change everything but the recorded ID, and may make the object go. */
  ghost predicate Outer(w: World, v: World) {
    && v.keys.next >= w.keys.next
    && (w.obj.Some? && v.obj.Some? ==> v.obj.value.status == w.obj.value.status)
    && (w.obj == None && v.obj.Some? ==> v.obj.value.status == None)
  }

  /** Keys that others made in a step, or that lost their name because the object went. */
  ghost function OuterKeys(w: World, v: World): set<nat> {
    (v.keys.rows.Keys - w.keys.rows.Keys) + if w.obj.Some? && v.obj == None then Ids(w.obj.value.status) else {}
  }

  ghost predicate Follows(step: Step, w: World, v: World) {
    match step
    case Outside => Outer(w, v)
    case Run(c, d) => v == AfterPass(c, d, w)
  }

  ghost predicate Trace(steps: seq<Step>, ws: seq<World>) {
    |ws| == |steps| + 1 && forall i :: 0 <= i < |steps| ==> Follows(steps[i], ws[i], ws[i + 1])
  }

  ghost function NotOurs(steps: seq<Step>, ws: seq<World>): set<nat>
    requires |ws| == |steps| + 1
  {
    if steps == [] then {}
    else
      var n := |steps| - 1;
      NotOurs(steps[..n], ws[..n + 1]) + if steps[n].Outside? then OuterKeys(ws[n], ws[n + 1]) else {}
  }

  /** The passes that lose a key. */
  ghost function Losses(steps: seq<Step>, ws: seq<World>): nat
    requires |ws| == |steps| + 1
  {
    if steps == [] then 0
    else
      var n := |steps| - 1;
      Losses(steps[..n], ws[..n + 1]) + if steps[n].Run? && Loses(steps[n].pass, steps[n].groups, ws[n]) then 1 else 0
  }

  lemma IssuedStays(step: Step, w: World, v: World)
    requires Issued(w) && Follows(step, w, v)
    ensures Issued(v)
  {
  }

  lemma StepLoses(step: Step, w: World, v: World)
    requires Issued(w) && Follows(step, w, v)
    ensures var more := Orphans(v) - Orphans(w);
            if step.Outside? then more <= OuterKeys(w, v)
            else |more| <= if Loses(step.pass, step.groups, w) then 1 else 0
  {
    if step.Run? {
      RotationOrphansExactlyWhen(step.pass, step.groups, w);
      var more := Orphans(v) - Orphans(w);
      assert more == {} ==> |more| == 0;
    }
  }

  /** Over every run, with others free to make and delete keys, the unnamed keys that are neither theirs nor
      there from the start are at most as many as the passes that lost one. */
  lemma {:induction false} RunOrphans(steps: seq<Step>, ws: seq<World>)
    requires Trace(steps, ws) && Issued(ws[0])
    ensures Issued(ws[|steps|])
    ensures |Orphans(ws[|steps|]) - NotOurs(steps, ws)| <= |Orphans(ws[0])| + Losses(steps, ws)
  {
    if steps == [] {
      CardSubset(Orphans(ws[0]) - NotOurs(steps, ws), Orphans(ws[0]));
    } else {
      var n := |steps| - 1;
      var w, v := ws[n], ws[n + 1];
      RunOrphans(steps[..n], ws[..n + 1]);
      assert Follows(steps[n], w, v);
      IssuedStays(steps[n], w, v);
      StepLoses(steps[n], w, v);
      var more := Orphans(v) - Orphans(w);
      if steps[n].Run? {
        CardUnion(Orphans(w) - NotOurs(steps[..n], ws[..n + 1]), more, Orphans(v) - NotOurs(steps, ws));
      } else {
        CardSubset(Orphans(v) - NotOurs(steps, ws), Orphans(w) - NotOurs(steps[..n], ws[..n + 1]));
      }
    }
  }
}
