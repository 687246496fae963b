// The Service controller's policy annotations: which Service ports an OZResource exposes
// (internal/controller/service_controller.go).
module ServicePorts {
  import opened Slices
  import opened Tables

  datatype Protocol = TCP | UDP | Other

  datatype ServicePort = ServicePort(protocol: Protocol, number: int)

  /** The policy annotations of a Service; None when absent. */
  datatype Annotations = Annotations(policy: Option<string>, protocol: Option<string>, ports: Option<string>,
                                     sourceGroups: Option<string>, friendlyNames: string)

  /** The policy part of an OZResource spec. */
  datatype Spec = Spec(policyName: string, tcp: seq<int>, udp: seq<int>, sourceGroups: seq<string>,
                       friendly: map<string, string>)

  // ----- numbers in annotations -----

  predicate Digit(c: char) {
    '0' <= c <= '9'
  }

  function Value(s: string): (v: int)
    requires forall c :: c in s ==> Digit(c)
    ensures v >= 0
  {
    if s == "" then 0
    else
      var n := |s| - 1;
      assert s[n] in s && Digit(s[n]);
      Value(s[..n]) * 10 + (s[n] as int - '0' as int)
  }

  /** strconv.ParseInt in base 10 with 64 bits. */
  function ParseInt(s: string): Option<int> {
    var body := if s != "" && s[0] in "+-" then s[1..] else s;
    if body == "" || exists c :: c in body && !Digit(c) then None
    else
      var v := if s[0] == '-' then -Value(body) else Value(body);
      if -0x8000_0000_0000_0000 <= v < 0x8000_0000_0000_0000 then Some(v) else None
  }

  /** The conversion to int32 keeps the low 32 bits. */
  function Int32(v: int): int {
    (v + 0x8000_0000) % 0x1_0000_0000 - 0x8000_0000
  }

  /** The filter ports written in the pieces of an annotation; None as soon as one piece is no number. */
  function Ports(pieces: seq<string>): Option<seq<int>> {
    if pieces == [] then Some([])
    else
      var front := Ports(pieces[..|pieces| - 1]);
      var last := ParseInt(pieces[|pieces| - 1]);
      if front == None || last == None then None else Some(front.value + [Int32(last.value)])
  }

  /** The loop over the comma-separated filter ports; the pieces are not trimmed. */
  method FilterPorts(annotation: string) returns (ports: Option<seq<int>>)
    ensures ports == Ports(Split(annotation, ','))
  {
    var pieces := Split(annotation, ',');
    var found: seq<int> := [];
    for i := 0 to |pieces|
      invariant Ports(pieces[..i]) == Some(found)
    {
      assert pieces[..i + 1][..i] == pieces[..i];
      var port := ParseInt(pieces[i]);
      if port == None {
        PortsFail(pieces, i + 1);
        return None;
      }
      found := found + [Int32(port.value)];
    }
    assert pieces[..|pieces|] == pieces;
    return Some(found);
  }

  lemma {:induction false} PortsFail(pieces: seq<string>, n: nat)
    requires n <= |pieces| && Ports(pieces[..n]) == None
    ensures Ports(pieces) == None
    decreases |pieces| - n
  {
    if n < |pieces| {
      assert pieces[..n + 1][..n] == pieces[..n];
      PortsFail(pieces, n + 1);
    } else {
      assert pieces[..n] == pieces;
    }
  }

  // ----- the port loop -----

  /** What the annotations let through; no ports means any port, no protocol means any protocol. */
  datatype Filter = Filter(ports: seq<int>, protocol: Option<string>)

  function Named(p: Protocol): string {
    match p
    case TCP => "tcp"
    case UDP => "udp"
    case Other => ""
  }

  predicate Rejects(f: Filter, p: Protocol, number: int) {
    || (f.ports != [] && number !in f.ports)
    || (f.protocol.Some? && f.protocol.value != Named(p))
  }

  /** One iteration's effect on the list of one protocol. */
  function Visit(f: Filter, p: Protocol, port: ServicePort, held: seq<int>): seq<int> {
    if port.protocol != p then held
    else if Rejects(f, p, port.number) then Drop(held, {port.number})
    else if port.number in held then held
    else held + [port.number]
  }

  function Visits(f: Filter, p: Protocol, ports: seq<ServicePort>, held: seq<int>): seq<int> {
    if ports == [] then held
    else Visit(f, p, ports[|ports| - 1], Visits(f, p, ports[..|ports| - 1], held))
  }

  method Remove(held: seq<int>, number: int) returns (left: seq<int>)
    ensures left == Drop(held, {number})
  {
    left := held;
    if number in held {
      left := Without(held, number);
    } else {
      DropNothing(held, {number});
    }
  }

  // ----- friendly names -----

  /** The pieces between commas, each split at its colons. */
  function Parsed(pieces: seq<string>): (r: seq<seq<string>>)
    ensures |r| == |pieces|
    ensures forall i :: 0 <= i < |pieces| ==> r[i] == Names(pieces[i], ':')
  {
    if pieces == [] then [] else [Names(pieces[0], ':')] + Parsed(pieces[1..])
  }

  function Befriended(pairs: seq<seq<string>>): map<string, string> {
    if pairs == [] then map[]
    else
      var m := Befriended(pairs[..|pairs| - 1]);
      var pair := pairs[|pairs| - 1];
      if |pair| == 2 then m[pair[0] := pair[1]] else m
  }

  /** The loop over the annotation's pieces; one without exactly one colon is skipped. */
  method FriendlyNames(annotation: string) returns (m: map<string, string>)
    ensures m == Befriended(Parsed(Names(annotation, ',')))
  {
    var pieces := SplitTrim(annotation, ',');
    ghost var pairs := Parsed(pieces);
    m := map[];
    for i := 0 to |pieces|
      invariant m == Befriended(pairs[..i])
    {
      assert pairs[..i + 1][..i] == pairs[..i];
      var pair := SplitTrim(pieces[i], ':');
      if |pair| != 2 {
        continue;
      }
      m := m[pair[0] := pair[1]];
    }
    assert pairs[..|pieces|] == pairs;
  }

  predicate PairFor(pair: seq<string>, k: string) {
    |pair| == 2 && pair[0] == k
  }

  /** Piece i is the last well-formed pair for policy k. */
  ghost predicate LastFor(pairs: seq<seq<string>>, k: string, i: nat) {
    i < |pairs| && PairFor(pairs[i], k) && forall j :: i < j < |pairs| ==> !PairFor(pairs[j], k)
  }

  /** A policy gets the friendly name of its last well-formed pair, and none without one. */
  lemma {:induction false} LastPairWins(pairs: seq<seq<string>>, k: string)
    ensures k in Befriended(pairs) <==> exists i :: LastFor(pairs, k, i)
    ensures forall i: nat :: LastFor(pairs, k, i) ==> k in Befriended(pairs) && Befriended(pairs)[k] == pairs[i][1]
  {
    if pairs != [] {
      var n := |pairs| - 1;
      LastPairWins(pairs[..n], k);
      if PairFor(pairs[n], k) {
        assert LastFor(pairs, k, n);
      } else {
        forall i: nat ensures LastFor(pairs, k, i) <==> LastFor(pairs[..n], k, i) {
          if LastFor(pairs[..n], k, i) {
            forall j | i < j < |pairs| ensures !PairFor(pairs[j], k) {
              assert j < n ==> pairs[..n][j] == pairs[j];
            }
          }
        }
      }
    }
  }

  // ----- one Service -----

  function FilterOf(a: Annotations): Option<Filter> {
    var ports := if a.ports.Some? then Ports(Split(a.ports.value, ',')) else Some([]);
    if ports == None then None else Some(Filter(ports.value, a.protocol))
  }

  /** The spec the annotations ask for once the filter is read. */
  function Asked(a: Annotations, f: Filter, ports: seq<ServicePort>, s: Spec): Spec
    requires a.policy.Some?
  {
    Spec(a.policy.value, Visits(f, TCP, ports, s.tcp), Visits(f, UDP, ports, s.udp),
         if a.sourceGroups.Some? then Names(a.sourceGroups.value, ',') else [],
         Befriended(Parsed(Names(a.friendlyNames, ','))))
  }

  /** The spec a Service asks for; None when its port annotation cannot be read. */
  function Wanted(a: Annotations, ports: seq<ServicePort>, s: Spec): Option<Spec> {
    if a.policy == None then
      Some(if s.policyName != "" then s.(policyName := "", tcp := [], udp := []) else s)
    else
      var f := FilterOf(a);
      if f == None then None else Some(Asked(a, f.value, ports, s))
  }

  /** The OZResource as edited in memory. */
  class ResourceDraft {
    var policyName: string
    var tcp: seq<int>
    var udp: seq<int>
    var sourceGroups: seq<string>
    var friendly: map<string, string>

    constructor (s: Spec)
      ensures State() == s
    {
      policyName, tcp, udp, sourceGroups, friendly := s.policyName, s.tcp, s.udp, s.sourceGroups, s.friendly;
    }

    function State(): Spec
      reads this
    {
      Spec(policyName, tcp, udp, sourceGroups, friendly)
    }

    method ApplyPorts(f: Filter, ports: seq<ServicePort>)
      modifies this`tcp, this`udp
      ensures tcp == Visits(f, TCP, ports, old(tcp))
      ensures udp == Visits(f, UDP, ports, old(udp))
    {
      for i := 0 to |ports|
        invariant tcp == Visits(f, TCP, ports[..i], old(tcp))
        invariant udp == Visits(f, UDP, ports[..i], old(udp))
      {
        assert ports[..i + 1][..i] == ports[..i];
        var number := ports[i].number;
        match ports[i].protocol {
          case TCP =>
            if (|f.ports| > 0 && number !in f.ports) || (f.protocol != None && f.protocol.value != "tcp") {
              tcp := Remove(tcp, number);
            } else if number !in tcp {
              tcp := tcp + [number];
            }
          case UDP =>
            if (|f.ports| > 0 && number !in f.ports) || (f.protocol != None && f.protocol.value != "udp") {
              udp := Remove(udp, number);
            } else if number !in udp {
              udp := udp + [number];
            }
          case Other =>
        }
      }
      assert ports[..|ports|] == ports;
    }

    method ApplyPolicy(a: Annotations, ports: seq<ServicePort>) returns (err: bool)
      requires a.policy.Some?
      modifies this
      ensures err <==> Wanted(a, ports, old(State())) == None
      ensures !err ==> Some(State()) == Wanted(a, ports, old(State()))
    {
      var filterPorts := Some([]);
      if a.ports != None {
        filterPorts := FilterPorts(a.ports.value);
      }
      if filterPorts == None {
        return true;
      }
      Fill(a, Filter(filterPorts.value, a.protocol), ports);
      return false;
    }

    method Fill(a: Annotations, f: Filter, ports: seq<ServicePort>)
      requires a.policy.Some?
      modifies this
      ensures State() == Asked(a, f, ports, old(State()))
    {
      policyName := a.policy.value;
      if a.sourceGroups != None {
        sourceGroups := SplitTrim(a.sourceGroups.value, ',');
      } else {
        sourceGroups := [];
      }
      friendly := FriendlyNames(a.friendlyNames);
      ApplyPorts(f, ports);
    }
  }

  /** OZResourceSpec.Equal on these fields: friendly names are not compared, lists by length and membership. */
  predicate SpecEqual(s: Spec, t: Spec) {
    && s.policyName == t.policyName && Covers(s.tcp, t.tcp) && Covers(s.udp, t.udp)
    && Covers(s.sourceGroups, t.sourceGroups)
  }

  const EMPTY_SPEC := Spec("", [], [], [], map[])

  /** Whether the pass writes the OZResource: it is new, another field of its spec changed, or Equal says so. */
  predicate Issues(stored: Option<Spec>, moved: bool, wanted: Spec) {
    stored == None || moved || !SpecEqual(stored.value, wanted)
  }

  function Before(stored: Option<Spec>): Spec {
    if stored.Some? then stored.value else EMPTY_SPEC
  }

  /** The stored OZResource after the Service's pass; `moved` says that its name, network, address or groups
      changed, `down` that the create or update call fails. */
  method ExposeService(a: Annotations, ports: seq<ServicePort>, stored: Option<Spec>, moved: bool, down: bool)
    returns (s: Option<Spec>, err: bool)
    ensures var w := Wanted(a, ports, Before(stored));
            && (err <==> w == None || (Issues(stored, moved, w.value) && down))
            && s == if err || !Issues(stored, moved, w.value) then stored else w
  {
    var draft := new ResourceDraft(Before(stored));
    if a.policy != None {
      err := draft.ApplyPolicy(a, ports);
      if err {
        return stored, true;
      }
    } else if draft.policyName != "" {
      draft.policyName, draft.tcp, draft.udp := "", [], [];
    }
    var wanted := draft.State();
    if stored == None {
      return if down then None else Some(wanted), down;
    }
    var same := wanted.policyName == stored.value.policyName && !moved;
    var agree := Equivalent(stored.value.tcp, wanted.tcp);
    same := same && agree;
    agree := Equivalent(stored.value.udp, wanted.udp);
    same := same && agree;
    agree := Equivalent(stored.value.sourceGroups, wanted.sourceGroups);
    same := same && agree;
    if same {
      return stored, false;
    }
    return if down then stored else Some(wanted), down;
  }

  // ----- what the loop computes -----

  ghost predicate Serves(ports: seq<ServicePort>, p: Protocol, number: int) {
    ServicePort(p, number) in ports
  }

  /** The filter lets the port through: among its numbers, if it has any, and of its protocol, if it has one. */
  ghost predicate Passes(f: Filter, p: Protocol, number: int) {
    && (f.ports == [] || number in f.ports)
    && (f.protocol.Some? ==> f.protocol.value == (if p == TCP then "tcp" else "udp"))
  }

  /** As a set: (old minus rejected Service ports) plus accepted Service ports. Ports the Service no longer
      lists stay. */
  lemma {:induction false} VisitsMembers(f: Filter, p: Protocol, ports: seq<ServicePort>, held: seq<int>, v: int)
    requires p != Other
    ensures v in Visits(f, p, ports, held) <==> if ServicePort(p, v) in ports then Passes(f, p, v) else v in held
  {
    if ports != [] {
      var n := |ports| - 1;
      VisitsMembers(f, p, ports[..n], held, v);
      DropMembers(Visits(f, p, ports[..n], held), {ports[n].number}, v);
      assert ports == ports[..n] + [ports[n]];
      assert Serves(ports, p, v) <==> Serves(ports[..n], p, v) || ports[n] == ServicePort(p, v);
    }
  }

  /** What the annotations of a Service ask for, field by field. */
  lemma WantedFields(a: Annotations, ports: seq<ServicePort>, s: Spec)
    requires Wanted(a, ports, s).Some?
    ensures var w := Wanted(a, ports, s).value;
            if a.policy == None then
              w == if s.policyName == "" then s else s.(policyName := "", tcp := [], udp := [])
            else
              && w.policyName == a.policy.value
              && w.sourceGroups == (if a.sourceGroups == None then [] else Names(a.sourceGroups.value, ','))
              && (exists f: Filter ::
                    && (if a.ports == None then f.ports == [] else Some(f.ports) == Ports(Split(a.ports.value, ',')))
                    && f.protocol == a.protocol
                    && (forall v :: v in w.tcp <==>
                          if ServicePort(TCP, v) in ports then Passes(f, TCP, v) else v in s.tcp)
                    && (forall v :: v in w.udp <==>
                          if ServicePort(UDP, v) in ports then Passes(f, UDP, v) else v in s.udp))
  {
    if a.policy.Some? {
      var f := FilterOf(a).value;
      var w := Wanted(a, ports, s).value;
      forall v ensures v in w.tcp <==> if ServicePort(TCP, v) in ports then Passes(f, TCP, v) else v in s.tcp {
        VisitsMembers(f, TCP, ports, s.tcp, v);
      }
      forall v ensures v in w.udp <==> if ServicePort(UDP, v) in ports then Passes(f, UDP, v) else v in s.udp {
        VisitsMembers(f, UDP, ports, s.udp, v);
      }
    }
  }

  /** Some piece of a port annotation is no number. */
  ghost predicate Unreadable(pieces: seq<string>) {
    exists i :: 0 <= i < |pieces| && ParseInt(pieces[i]) == None
  }

  /** The annotations cannot be read exactly when there is a port annotation with a piece that is no number. */
  lemma {:induction false} PortsReadable(pieces: seq<string>)
    ensures Ports(pieces) == None <==> Unreadable(pieces)
    ensures Ports(pieces).Some? ==>
              |Ports(pieces).value| == |pieces|
              && forall i :: 0 <= i < |pieces| ==>
                   ParseInt(pieces[i]).Some? && Ports(pieces).value[i] == Int32(ParseInt(pieces[i]).value)
  {
    if pieces != [] {
      PortsReadable(pieces[..|pieces| - 1]);
    }
  }

  lemma UnreadableExactlyWhen(a: Annotations, ports: seq<ServicePort>, s: Spec)
    ensures Wanted(a, ports, s) == None <==>
            a.policy.Some? && a.ports.Some? && Unreadable(Split(a.ports.value, ','))
  {
    if a.ports.Some? {
      PortsReadable(Split(a.ports.value, ','));
    }
  }

  lemma {:induction false} VisitsDistinct(f: Filter, p: Protocol, ports: seq<ServicePort>, held: seq<int>)
    requires NoRepeats(held)
    ensures NoRepeats(Visits(f, p, ports, held))
  {
    if ports != [] {
      var n := |ports| - 1;
      VisitsDistinct(f, p, ports[..n], held);
      DropKeepsDistinct(Visits(f, p, ports[..n], held), {ports[n].number});
    }
  }

  /** The rejected ports of a Service. */
  function Refused(f: Filter, p: Protocol, ports: seq<ServicePort>): set<int> {
    set x | x in ports && x.protocol == p && Rejects(f, p, x.number) :: x.number
  }

  /** Survivors keep their order and multiplicity; accepted ports that were missing are appended once each. */
  lemma {:induction false} VisitsExtends(f: Filter, p: Protocol, ports: seq<ServicePort>, held: seq<int>)
    returns (added: seq<int>)
    ensures Visits(f, p, ports, held) == Drop(held, Refused(f, p, ports)) + added
    ensures NoRepeats(added)
    ensures forall v :: v in added <==> v !in held && Serves(ports, p, v) && !Rejects(f, p, v)
  {
    if ports == [] {
      added := [];
      DropNothing(held, Refused(f, p, ports));
    } else {
      var n := |ports| - 1;
      var x := ports[n];
      var before := VisitsExtends(f, p, ports[..n], held);
      assert ports == ports[..n] + [x];
      forall v ensures Serves(ports, p, v) <==> Serves(ports[..n], p, v) || x == ServicePort(p, v) {
      }
      var kept := Drop(held, Refused(f, p, ports[..n]));
      if x.protocol == p && Rejects(f, p, x.number) {
        assert Refused(f, p, ports) == Refused(f, p, ports[..n]) + {x.number};
        DropTwice(held, Refused(f, p, ports[..n]), {x.number});
        DropConcat(kept, before, {x.number});
        DropNothing(before, {x.number});
        added := before;
      } else {
        assert Refused(f, p, ports) == Refused(f, p, ports[..n]);
        DropMembers(held, Refused(f, p, ports), x.number);
        assert x.protocol == p ==> x.number !in Refused(f, p, ports);
        added := if x.protocol == p && x.number !in held && x.number !in before then before + [x.number] else before;
      }
    }
  }

  lemma SomeMember(s: seq<int>)
    ensures s != [] ==> exists v :: v in s
  {
    if s != [] {
      var v := s[0];
      assert v in s;
    }
  }

  /** Where Equal sees no difference in a port list, there is none. */
  lemma CoveredPortsAgree(f: Filter, p: Protocol, ports: seq<ServicePort>, held: seq<int>)
    requires Covers(held, Visits(f, p, ports, held))
    ensures Visits(f, p, ports, held) == held
  {
    var added := VisitsExtends(f, p, ports, held);
    var kept := Drop(held, Refused(f, p, ports));
    SomeMember(added);
    assert forall v :: v in added ==> v in Visits(f, p, ports, held);
    assert forall v :: v in Visits(f, p, ports, held) ==> v in held;
    DropShrinks(held, Refused(f, p, ports));
    assert Visits(f, p, ports, held) == kept;
  }

  /** The comparison sees a difference: the lengths differ, or the wanted list has a member the stored one lacks. */
  ghost predicate SeesChange<T>(stored: seq<T>, wanted: seq<T>) {
    |stored| != |wanted| || exists v :: v in wanted && v !in stored
  }

  /** A write is issued exactly for a new or moved Service, or when the policy name differs or the comparison sees a
      difference in the ports or source groups; friendly names do not count. */
  lemma IssuedExactlyWhen(stored: Option<Spec>, moved: bool, wanted: Spec)
    ensures Issues(stored, moved, wanted) <==>
            || stored == None || moved || stored.value.policyName != wanted.policyName
            || SeesChange(stored.value.tcp, wanted.tcp) || SeesChange(stored.value.udp, wanted.udp)
            || SeesChange(stored.value.sourceGroups, wanted.sourceGroups)
  {
  }

  /** A Service exposed for the first time starts from nothing: its ports are the accepted ones and no other. Without
      a policy annotation it stays empty. */
  lemma FirstExposure(a: Annotations, ports: seq<ServicePort>)
    requires Wanted(a, ports, Before(None)).Some?
    ensures var w := Wanted(a, ports, Before(None)).value;
            if a.policy == None then w == Spec("", [], [], [], map[])
            else
              exists f: Filter :: FilterOf(a) == Some(f)
                && (forall v :: v in w.tcp <==> ServicePort(TCP, v) in ports && Passes(f, TCP, v))
                && (forall v :: v in w.udp <==> ServicePort(UDP, v) in ports && Passes(f, UDP, v))
  {
    if a.policy.Some? {
      var f := FilterOf(a).value;
      var w := Wanted(a, ports, Before(None)).value;
      forall v ensures v in w.tcp <==> ServicePort(TCP, v) in ports && Passes(f, TCP, v) {
        VisitsMembers(f, TCP, ports, [], v);
      }
      forall v ensures v in w.udp <==> ServicePort(UDP, v) in ports && Passes(f, UDP, v) {
        VisitsMembers(f, UDP, ports, [], v);
      }
    }
  }

  /** A later exposure starts from the spec that is stored. */
  lemma LaterExposure(a: Annotations, ports: seq<ServicePort>, stored: Spec, v: int)
    requires Wanted(a, ports, Before(Some(stored))).Some? && a.policy.Some?
    ensures var w := Wanted(a, ports, Before(Some(stored))).value;
            && (ServicePort(TCP, v) !in ports ==> (v in w.tcp <==> v in stored.tcp))
            && (ServicePort(UDP, v) !in ports ==> (v in w.udp <==> v in stored.udp))
  {
    VisitsMembers(FilterOf(a).value, TCP, ports, stored.tcp, v);
    VisitsMembers(FilterOf(a).value, UDP, ports, stored.udp, v);
  }

  /** Without an error the stored spec is what the annotations ask for exactly when an update is issued, or
      the friendly names and source groups agree already. */
  lemma ExposedExactlyWhen(a: Annotations, ports: seq<ServicePort>, stored: Spec, moved: bool)
    requires Wanted(a, ports, stored).Some?
    ensures var w := Wanted(a, ports, stored).value;
            var s := if Issues(Some(stored), moved, w) then w else stored;
            s == w <==>
            Issues(Some(stored), moved, w) || (stored.friendly == w.friendly && stored.sourceGroups == w.sourceGroups)
  {
    var w := Wanted(a, ports, stored).value;
    if !Issues(Some(stored), moved, w) && a.policy.Some? {
      CoveredPortsAgree(FilterOf(a).value, TCP, ports, stored.tcp);
      CoveredPortsAgree(FilterOf(a).value, UDP, ports, stored.udp);
    }
  }

  predicate Plain(s: string) {
    s != "" && Trimmed(s) && ',' !in s && ':' !in s
  }

  /** A friendly name added to an exposed Service is never stored, whatever the policy p, its new name and the
      source group g. */
  lemma FriendlyNameLost(p: string, nice: string, g: string, port: int)
    requires Plain(p) && Plain(nice) && Plain(g)
    ensures var a := Annotations(Some(p), None, None, Some(g), Join([p, nice], ':'));
            var stored := Spec(p, [port], [], [g], map[]);
            var w := Wanted(a, [ServicePort(TCP, port)], stored);
            w.Some? && w.value.friendly == map[p := nice] && !Issues(Some(stored), false, w.value)
  {
    var pair := Join([p, nice], ':');
    assert [p, nice][1..] == [nice];
    assert pair == p + [':'] + nice && pair[0] == p[0] && pair[|pair| - 1] == nice[|nice| - 1];
    NamesOfOne(g, ',');
    NamesOfOne(pair, ',');
    SplitTrimUndoesJoin([p, nice], ':');
    assert Parsed([pair]) == [[p, nice]] && [[p, nice]][..0] == [];
    assert Befriended([[p, nice]]) == map[p := nice];
    var ports := [ServicePort(TCP, port)];
    VisitsSettled(Filter([], None), TCP, ports, [port]);
    VisitsSettled(Filter([], None), UDP, ports, []);
    var a := Annotations(Some(p), None, None, Some(g), pair);
    assert FilterOf(a) == Some(Filter([], None));
    assert Wanted(a, ports, Spec(p, [port], [], [g], map[])) == Some(Spec(p, [port], [], [g], map[p := nice]));
  }

  /** Nor is a change of the source groups that keeps their number and names no new one. */
  lemma SourceGroupsLost(x: string, y: string, s: Spec)
    requires s.sourceGroups == [x, y]
    ensures SpecEqual(s, s.(sourceGroups := [x, x]))
  {
  }

  /** The result as a set does not depend on the order or repetition of the Service's ports. */
  lemma OrderIrrelevant(f: Filter, p: Protocol, ports: seq<ServicePort>, others: seq<ServicePort>, held: seq<int>)
    requires p != Other && forall x :: x in ports <==> x in others
    ensures forall v :: v in Visits(f, p, ports, held) <==> v in Visits(f, p, others, held)
  {
    forall v ensures v in Visits(f, p, ports, held) <==> v in Visits(f, p, others, held) {
      VisitsMembers(f, p, ports, held, v);
      VisitsMembers(f, p, others, held, v);
    }
  }

  lemma {:induction false} VisitsSettled(f: Filter, p: Protocol, ports: seq<ServicePort>, held: seq<int>)
    requires forall x :: x in ports && x.protocol == p ==> (x.number in held <==> !Rejects(f, p, x.number))
    ensures Visits(f, p, ports, held) == held
  {
    if ports != [] {
      var n := |ports| - 1;
      VisitsSettled(f, p, ports[..n], held);
      assert ports[n] in ports;
      if ports[n].protocol == p && Rejects(f, p, ports[n].number) {
        DropNothing(held, {ports[n].number});
      }
    }
  }

  /** A second pass over an unchanged Service changes nothing, so it issues no update. */
  lemma SecondPassIsQuiet(a: Annotations, ports: seq<ServicePort>, s: Spec)
    requires Wanted(a, ports, s).Some?
    ensures Wanted(a, ports, Wanted(a, ports, s).value) == Wanted(a, ports, s)
    ensures !Issues(Wanted(a, ports, s), false, Wanted(a, ports, Wanted(a, ports, s).value).value)
  {
    if a.policy.Some? {
      var f := FilterOf(a).value;
      forall x | x in ports && x.protocol != Other
        ensures x.number in Visits(f, x.protocol, ports, s.tcp) <==> !Rejects(f, x.protocol, x.number)
        ensures x.number in Visits(f, x.protocol, ports, s.udp) <==> !Rejects(f, x.protocol, x.number)
      {
        assert Serves(ports, x.protocol, x.number);
        VisitsMembers(f, x.protocol, ports, s.tcp, x.number);
        VisitsMembers(f, x.protocol, ports, s.udp, x.number);
      }
      VisitsSettled(f, TCP, ports, Visits(f, TCP, ports, s.tcp));
      VisitsSettled(f, UDP, ports, Visits(f, UDP, ports, s.udp));
    }
  }

  // ----- what the annotation means -----

  function Decimal(n: nat): (s: string)
    ensures s != "" && forall c :: c in s ==> Digit(c)
  {
    var last := [('0' as int + n % 10) as char];
    if n < 10 then last else Decimal(n / 10) + last
  }

  lemma {:induction false} DecimalValue(n: nat)
    ensures Value(Decimal(n)) == n
  {
    if n >= 10 {
      DecimalValue(n / 10);
      var k := |Decimal(n / 10)|;
      assert Decimal(n)[..k] == Decimal(n / 10);
    } else {
      assert Decimal(n)[..0] == "";
    }
  }

  lemma DecimalParses(n: nat)
    requires n < 0x8000_0000_0000_0000
    ensures ParseInt(Decimal(n)) == Some(n)
  {
    DecimalValue(n);
    assert Decimal(n)[0] in Decimal(n);
    assert Digit(Decimal(n)[0]);
  }

  /** A minus sign negates, a plus sign does nothing. */
  lemma SignedParses(n: nat)
    requires n <= 0x8000_0000_0000_0000
    ensures ParseInt("-" + Decimal(n)) == Some(0 - n as int)
    ensures n < 0x8000_0000_0000_0000 ==> ParseInt("+" + Decimal(n)) == Some(n)
  {
    DecimalValue(n);
    assert ("-" + Decimal(n))[1..] == Decimal(n) && ("+" + Decimal(n))[1..] == Decimal(n);
  }

  /** What is not an optional sign and digits is no number, and neither is what 64 bits cannot hold. */
  lemma NoNumber(s: string)
    requires || s in ["", "-", "+"]
             || (exists i :: 0 < i < |s| && !('0' <= s[i] <= '9'))
             || (s != "" && s[0] !in ['-', '+'] && !('0' <= s[0] <= '9'))
    ensures ParseInt(s) == None
  {
    if i :| 0 < i < |s| && !('0' <= s[i] <= '9') {
      var body := if s[0] in "+-" then s[1..] else s;
      assert s[i] == (if s[0] in "+-" then s[1..][i - 1] else s[i]);
      assert s[i] in body && !Digit(s[i]);
    } else if s != "" && s[0] !in ['-', '+'] && !('0' <= s[0] <= '9') {
      assert s[0] in s && !Digit(s[0]) && s[0] !in "+-";
    }
  }

  lemma TooLarge(n: nat)
    requires n >= 0x8000_0000_0000_0000
    ensures ParseInt(Decimal(n)) == None && (n > 0x8000_0000_0000_0000 ==> ParseInt("-" + Decimal(n)) == None)
  {
    DecimalValue(n);
    assert Decimal(n)[0] in Decimal(n) && Digit(Decimal(n)[0]);
    assert ("-" + Decimal(n))[1..] == Decimal(n);
  }

  function Decimals(ports: seq<nat>): (r: seq<string>)
    ensures |r| == |ports| && forall i :: 0 <= i < |ports| ==> r[i] == Decimal(ports[i])
  {
    if ports == [] then [] else Decimals(ports[..|ports| - 1]) + [Decimal(ports[|ports| - 1])]
  }

  lemma PortsMore(front: seq<string>, last: string, ports: seq<int>, port: nat)
    requires Ports(front) == Some(ports) && ParseInt(last) == Some(port) && port < 0x8000_0000
    ensures Ports(front + [last]) == Some(ports + [port])
  {
    assert (front + [last])[..|front|] == front;
    assert Int32(port) == port;
  }

  lemma {:induction false} DecimalsRead(ports: seq<nat>)
    requires forall v :: v in ports ==> v < 0x8000_0000
    ensures Ports(Decimals(ports)) == Some(ports)
  {
    if ports != [] {
      var front, last := ports[..|ports| - 1], ports[|ports| - 1];
      assert ports == front + [last] && last in ports;
      assert forall v :: v in front ==> v in ports;
      DecimalsRead(front);
      DecimalParses(last);
      PortsMore(Decimals(front), Decimal(last), front, last);
    }
  }

  /** Decimal port numbers joined by commas are read back as the filter. */
  lemma AnnotationRoundTrip(ports: seq<nat>)
    requires ports != [] && forall v :: v in ports ==> v < 0x8000_0000
    ensures Ports(Split(Join(Decimals(ports), ','), ',')) == Some(ports)
  {
    forall i | 0 <= i < |ports| ensures ',' !in Decimals(ports)[i] {
      assert forall c :: c in Decimal(ports[i]) ==> Digit(c);
    }
    SplitUndoesJoin(Decimals(ports), ',');
    DecimalsRead(ports);
  }

  /** A filter number stands for a port exactly when they agree in their low 32 bits. */
  lemma FilterMatchesModulo(v: int, port: nat)
    requires port < 0x1_0000
    ensures Int32(v) == port <==> (v - port) % 0x1_0000_0000 == 0
  {
    var m := 0x1_0000_0000;
    var q, r := (v + 0x8000_0000) / m, (v + 0x8000_0000) % m;
    assert v - port == q * m + (r - 0x8000_0000 - port);
    if (v - port) % m == 0 {
      var k := (v - port) / m;
      assert r - 0x8000_0000 - port == (k - q) * m;
    }
  }
}
