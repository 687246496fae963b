// GetGroupIDs: resolving the group references of v1alpha1 objects (internal/openzroutil/group.go).
module GroupRefs {
  import opened Tables

  /** A GroupReference; the first field that is set wins, and one with no field set is skipped. */
  datatype Ref = ByName(name: string) | ById(id: nat) | Local(name: string) | Unset

  /** What lookups can find: server groups by name and by ID, and Group objects with their status IDs. */
  datatype Directory = Directory(named: map<string, nat>, ids: set<nat>, objects: map<string, Option<nat>>)

  /** The ID a reference stands for. */
  function Target(d: Directory, r: Ref): Option<nat> {
    match r
    case ByName(n) => if n in d.named then Some(d.named[n]) else None
    case ById(id) => if id in d.ids then Some(id) else None
    case Local(n) => if n in d.objects then d.objects[n] else None
    case Unset => None
  }

  /** The lookup of reference number n fails or finds nothing usable. */
  predicate Unresolved(d: Directory, refs: seq<Ref>, down: set<nat>, n: nat)
    requires n < |refs|
  {
    !refs[n].Unset? && (n in down || Target(d, refs[n]) == None)
  }

  function Targets(d: Directory, refs: seq<Ref>): seq<nat> {
    if refs == [] then []
    else
      var t := Target(d, refs[|refs| - 1]);
      Targets(d, refs[..|refs| - 1]) + if t.Some? then [t.value] else []
  }

  ghost predicate Resolves(d: Directory, refs: seq<Ref>, down: set<nat>) {
    forall n :: 0 <= n < |refs| ==> !Unresolved(d, refs, down, n)
  }

  method GetGroupIds(d: Directory, refs: seq<Ref>, down: set<nat>) returns (ids: Option<seq<nat>>)
    ensures ids.Some? <==> Resolves(d, refs, down)
    ensures ids.Some? ==> ids.value == Targets(d, refs)
  {
    var found: seq<nat> := [];
    for i := 0 to |refs|
      invariant forall n :: 0 <= n < i ==> !Unresolved(d, refs, down, n)
      invariant found == Targets(d, refs[..i])
    {
      assert refs[..i + 1][..i] == refs[..i];
      match refs[i] {
        case ByName(name) =>
          if i in down || name !in d.named {
            assert Unresolved(d, refs, down, i);
            return None;
          }
          found := found + [d.named[name]];
        case ById(id) =>
          if i in down || id !in d.ids {
            assert Unresolved(d, refs, down, i);
            return None;
          }
          found := found + [id];
        case Local(name) =>
          if i in down || name !in d.objects || d.objects[name] == None {
            assert Unresolved(d, refs, down, i);
            return None;
          }
          found := found + [d.objects[name].value];
        case Unset =>
      }
    }
    assert refs[..|refs|] == refs;
    return Some(found);
  }

  function SetRefs(refs: seq<Ref>): seq<Ref> {
    if refs == [] then []
    else SetRefs(refs[..|refs| - 1]) + if refs[|refs| - 1].Unset? then [] else [refs[|refs| - 1]]
  }

  /** id is what a reference stands for: the server group of that name, the given server group, or the ID that the
      Group object's status records. */
  ghost predicate StandsFor(d: Directory, r: Ref, id: nat) {
    match r
    case ByName(n) => n in d.named && d.named[n] == id
    case ById(i) => i in d.ids && i == id
    case Local(n) => n in d.objects && d.objects[n] == Some(id)
    case Unset => false
  }

  /** A resolution succeeds exactly when every set reference can be looked up and stands for something. */
  lemma ResolvesExactlyWhen(d: Directory, refs: seq<Ref>, down: set<nat>)
    ensures Resolves(d, refs, down) <==>
            forall n :: 0 <= n < |refs| && refs[n] != Unset ==> n !in down && exists id :: StandsFor(d, refs[n], id)
  {
    forall n | 0 <= n < |refs|
      ensures !Unresolved(d, refs, down, n) <==>
              (refs[n] != Unset ==> n !in down && exists id :: StandsFor(d, refs[n], id))
    {
      var t := Target(d, refs[n]);
      assert t.Some? ==> StandsFor(d, refs[n], t.value);
    }
  }

  /** A successful resolution yields one ID per set reference, in order, which is what the reference stands for. */
  lemma {:induction false} ResolutionIsPointwise(d: Directory, refs: seq<Ref>, down: set<nat>)
    requires Resolves(d, refs, down)
    ensures |Targets(d, refs)| == |SetRefs(refs)|
    ensures forall i :: 0 <= i < |SetRefs(refs)| ==> StandsFor(d, SetRefs(refs)[i], Targets(d, refs)[i])
  {
    if refs != [] {
      var front, last := refs[..|refs| - 1], |refs| - 1;
      forall n | 0 <= n < |front| ensures !Unresolved(d, front, down, n) {
        assert !Unresolved(d, refs, down, n);
      }
      assert !Unresolved(d, refs, down, last);
      ResolutionIsPointwise(d, front, down);
    }
  }
}
