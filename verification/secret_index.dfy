// The OZSetupKey controller's index from Secrets to the setup keys that use them, and the watch lookup that
// reads it (internal/controller/ozsetupkey_controller.go).
module SecretIndex {
  import opened KeyNames
  import opened Tables

  /** One pass: the requested setup key, whether it could be read, and its Secret reference. */
  datatype Pass = Pass(req: Key, found: bool, secretName: string, secretKey: string)

  predicate Valid(p: Pass) {
    p.found && p.secretName != "" && p.secretKey != ""
  }

  /** The Secret a pass names, as the index writes it. */
  function Secret(p: Pass): string {
    Print(Key(p.req.ns, p.secretName))
  }

  type Index = map<string, Key>

  /** One entry of k is gone, whichever the map iteration met first, or there was none. */
  ghost predicate Forgets(k: Key, m: Index, n: Index) {
    || (n == m && forall s :: s in m ==> m[s] != k)
    || (exists s :: s in m && m[s] == k && n == m - {s})
  }

  ghost predicate AfterPass(p: Pass, m: Index, n: Index) {
    if !Valid(p) then n == m
    else exists r: Index :: Forgets(p.req, m, r) && n == r[Secret(p) := p.req]
  }

  /** A pass that cannot read its setup key, or finds no Secret name or key in it, leaves the index alone; any other
      pass makes its Secret stand for it. */
  lemma PassIndexes(p: Pass, m: Index, n: Index)
    requires AfterPass(p, m, n)
    ensures if !p.found || p.secretName == "" || p.secretKey == "" then n == m
            else
              var secret := p.req.ns + "/" + p.secretName;
              && secret in n && n[secret] == p.req
              && forall s :: s in n && s != secret ==> s in m && n[s] == m[s]
  {
  }

  class SetupKeyIndex {
    var referencedSecrets: Index

    constructor ()
      ensures referencedSecrets == map[]
    {
      referencedSecrets := map[];
    }

    method Forget(k: Key)
      modifies this
      ensures Forgets(k, old(referencedSecrets), referencedSecrets)
    {
      var rest := referencedSecrets.Keys;
      while rest != {}
        invariant rest <= referencedSecrets.Keys && referencedSecrets == old(referencedSecrets)
        invariant forall s :: s in referencedSecrets && s !in rest ==> referencedSecrets[s] != k
      {
        var s :| s in rest;
        rest := rest - {s};
        if referencedSecrets[s] == k {
          referencedSecrets := referencedSecrets - {s};
          break;
        }
      }
    }

    method Reconcile(p: Pass)
      modifies this
      ensures AfterPass(p, old(referencedSecrets), referencedSecrets)
    {
      if !p.found {
        return;
      }
      if p.secretName == "" || p.secretKey == "" {
        return;
      }
      Forget(p.req);
      referencedSecrets := referencedSecrets[Secret(p) := p.req];
    }

    /** The setup keys to reconcile when this Secret changes. */
    method Requests(secret: Key) returns (keys: seq<Key>)
      ensures keys == Lookup(referencedSecrets, Print(secret))
    {
      if Print(secret) in referencedSecrets {
        return [referencedSecrets[Print(secret)]];
      }
      return [];
    }
  }

  function Lookup(m: Index, secret: string): seq<Key> {
    if secret in m then [m[secret]] else []
  }

  // ----- runs -----

  /** The Secret that k's last valid pass named. */
  function Uses(ps: seq<Pass>, k: Key): Option<string> {
    if ps == [] then None
    else
      var p := ps[|ps| - 1];
      if Valid(p) && p.req == k then Some(Secret(p)) else Uses(ps[..|ps| - 1], k)
  }

  /** The setup key whose valid pass was the last to name s. */
  function NamedBy(ps: seq<Pass>, s: string): Option<Key> {
    if ps == [] then None
    else
      var p := ps[|ps| - 1];
      if Valid(p) && Secret(p) == s then Some(p.req) else NamedBy(ps[..|ps| - 1], s)
  }

  ghost predicate Trace(ps: seq<Pass>, ms: seq<Index>) {
    && |ms| == |ps| + 1 && ms[0] == map[]
    && forall i :: 0 <= i < |ps| ==> AfterPass(ps[i], ms[i], ms[i + 1])
  }

  /** The index reached by any passes in any map iteration order: s stands for k exactly when the last valid
      pass that named s was k's, and it is also the last valid pass of k. */
  lemma {:induction false} IndexExactly(ps: seq<Pass>, ms: seq<Index>, s: string, k: Key)
    requires Trace(ps, ms)
    ensures s in ms[|ps|] && ms[|ps|][s] == k <==> NamedBy(ps, s) == Some(k) && Uses(ps, k) == Some(s)
    decreases |ps|, 0
  {
    if ps != [] {
      var n := |ps| - 1;
      var p := ps[n];
      IndexExactly(ps[..n], ms[..n + 1], s, k);
      if Valid(p) {
        var r: Index :| Forgets(p.req, ms[n], r) && ms[n + 1] == r[Secret(p) := p.req];
        if s in ms[n] && ms[n][s] == p.req && r != ms[n] {
          var gone :| gone in ms[n] && ms[n][gone] == p.req && r == ms[n] - {gone};
          ValuesDistinct(ps[..n], ms[..n + 1], s, gone);
        }
        if s !in r && s in ms[n] {
          assert ms[n][s] == p.req;
        }
      }
    }
  }

  /** Each setup key occurs at most once as a value. */
  lemma {:induction false} ValuesDistinct(ps: seq<Pass>, ms: seq<Index>, s: string, t: string)
    requires Trace(ps, ms) && s in ms[|ps|] && t in ms[|ps|] && ms[|ps|][s] == ms[|ps|][t]
    ensures s == t
    decreases |ps|, 1
  {
    IndexExactly(ps, ms, s, ms[|ps|][s]);
    IndexExactly(ps, ms, t, ms[|ps|][t]);
  }

  /** No two setup keys ever name the same Secret. */
  ghost predicate Exclusive(ps: seq<Pass>) {
    forall i, j :: 0 <= i < |ps| && 0 <= j < |ps| && Valid(ps[i]) && Valid(ps[j]) && Secret(ps[i]) == Secret(ps[j])
      ==> ps[i].req == ps[j].req
  }

  lemma {:induction false} ExclusiveNames(ps: seq<Pass>, s: string, k: Key)
    requires Exclusive(ps) && Uses(ps, k) == Some(s)
    ensures NamedBy(ps, s) == Some(k)
  {
    var i := UsesAt(ps, k);
    var j := NamedAt(ps, s, i);
    assert Secret(ps[i]) == Secret(ps[j]);
  }

  lemma {:induction false} UsesAt(ps: seq<Pass>, k: Key) returns (i: nat)
    requires Uses(ps, k).Some?
    ensures i < |ps| && Valid(ps[i]) && ps[i].req == k && Uses(ps, k) == Some(Secret(ps[i]))
  {
    i := |ps| - 1;
    if !(Valid(ps[i]) && ps[i].req == k) {
      i := UsesAt(ps[..i], k);
    }
  }

  lemma {:induction false} NamedAt(ps: seq<Pass>, s: string, i: nat) returns (j: nat)
    requires i < |ps| && Valid(ps[i]) && Secret(ps[i]) == s
    ensures j < |ps| && Valid(ps[j]) && Secret(ps[j]) == s && NamedBy(ps, s) == Some(ps[j].req)
  {
    j := |ps| - 1;
    if !(Valid(ps[j]) && Secret(ps[j]) == s) {
      j := NamedAt(ps[..j], s, i);
    }
  }

  /** With exclusive Secrets the lookup returns exactly the referencing key. */
  lemma LookupExact(ps: seq<Pass>, ms: seq<Index>, s: string, k: Key)
    requires Trace(ps, ms) && Exclusive(ps)
    ensures Lookup(ms[|ps|], s) == [k] <==> Uses(ps, k) == Some(s)
  {
    IndexExactly(ps, ms, s, k);
    if Uses(ps, k) == Some(s) {
      ExclusiveNames(ps, s, k);
    }
  }

  /** In general a referencing key is missed exactly when another key named its Secret later. */
  lemma LookupMissesExactlyWhen(ps: seq<Pass>, ms: seq<Index>, s: string, k: Key)
    requires Trace(ps, ms) && Uses(ps, k) == Some(s)
    ensures k !in Lookup(ms[|ps|], s) <==> NamedBy(ps, s) != Some(k)
  {
    IndexExactly(ps, ms, s, k);
  }

  /** A shared Secret can leave the index altogether while a setup key still uses it: a second key names it
      and then moves on. */
  lemma SharedSecretForgotten(k: Key, j: Key, s: string, t: string, ms: seq<Index>)
    requires k != j && k.ns == j.ns && s != "" && t != "" && s != t
    requires var ps := [Pass(k, true, s, "key"), Pass(j, true, s, "key"), Pass(j, true, t, "key")];
             Trace(ps, ms)
    ensures var ps := [Pass(k, true, s, "key"), Pass(j, true, s, "key"), Pass(j, true, t, "key")];
            && Uses(ps, k) == Some(Print(Key(k.ns, s)))
            && Lookup(ms[3], Print(Key(k.ns, s))) == []
  {
    var ps := [Pass(k, true, s, "key"), Pass(j, true, s, "key"), Pass(j, true, t, "key")];
    var secret := Print(Key(k.ns, s));
    assert ps[..2] == [ps[0], ps[1]] && ps[..2][..1] == [ps[0]] && [ps[0]][..0] == [];
    PrintDiffers(k.ns, s, t);
    assert Uses(ps[..1], k) == Some(secret) && Uses(ps[..2], k) == Some(secret);
    assert NamedBy(ps[..2], secret) == Some(j) && NamedBy(ps, secret) == Some(j);
    if secret in ms[3] {
      IndexExactly(ps, ms, secret, ms[3][secret]);
    }
  }

  lemma PrintDiffers(ns: string, s: string, t: string)
    requires s != t
    ensures Print(Key(ns, s)) != Print(Key(ns, t))
  {
    var n := |ns| + 1;
    assert Print(Key(ns, s))[n..] == s && Print(Key(ns, t))[n..] == t;
  }
}
