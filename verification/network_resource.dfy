// The v1alpha1 NetworkResource controller: one network resource and one DNS record per object
// (internal/controller/networkresource_controller.go, internal/openzroutil/zone.go).
module NetworkResources {
  import opened GroupRefs
  import opened Tables

  datatype Status = Status(network: Option<nat>, resource: Option<nat>, zone: Option<nat>, record: Option<nat>)

  datatype Object = Object(status: Status, refs: seq<Ref>, finalizer: bool, deleting: bool)

  datatype Resource = Resource(network: nat, address: string, groups: seq<nat>)

  datatype Record = Record(zone: nat, name: string, content: string)

  datatype Service = Service(name: string, ns: string, clusterType: bool, ip: string)

  datatype Router = Router(network: Option<nat>, peer: Option<nat>, zone: string)

  datatype Zone = Zone(id: nat, name: string)

  /** The object, what it refers to, and the rows on the server that were created for it. */
  datatype World = World(obj: Option<Object>, service: Option<Service>, router: Option<Router>, zones: seq<Zone>,
                         resources: Table<Resource>, records: Table<Record>)

  datatype Call =
    | GetObject | GetService | GetRouter | Lookup(n: nat) | UpdateResource | CreateResource | PatchResource
    | ListZones | DeleteRecord | UpdateRecord | CreateRecord | PatchRecord | DeleteResource | PatchFinalizer

  datatype Pass = Pass(down: set<Call>)

  ghost function LookupsDown(c: Pass, refs: seq<Ref>): set<nat> {
    set n | 0 <= n < |refs| && Lookup(n) in c.down
  }

  // ----- one pass -----

  /** The Service can be exposed and the router is up. */
  predicate Usable(w: World) {
    && w.service.Some? && w.service.value.clusterType && w.service.value.ip != "" && w.service.value.ip != "None"
    && w.router.Some? && w.router.value.network.Some? && w.router.value.peer.Some?
  }

  ghost predicate Reaches(c: Pass, d: Directory, w: World)
    requires w.obj.Some?
  {
    && Usable(w) && c.down !! {GetService, GetRouter}
    && Resolves(d, w.obj.value.refs, LookupsDown(c, w.obj.value.refs))
  }

  /** GetDNSZoneByName: the first zone with the name. */
  function FirstZone(zones: seq<Zone>, name: string): (r: Option<nat>)
    ensures r == None ==> forall i :: 0 <= i < |zones| ==> zones[i].name != name
    ensures r.Some? ==> exists i :: 0 <= i < |zones| && zones[i] == Zone(r.value, name)
                          && forall j :: 0 <= j < i ==> zones[j].name != name
  {
    if zones == [] then None
    else if zones[0].name == name then Some(zones[0].id)
    else FirstZone(zones[1..], name)
  }

  function RecordName(w: World): string
    requires Usable(w)
  {
    w.service.value.name + "." + w.service.value.ns + "." + w.router.value.zone
  }

  /** The recorded resource can be updated through this network. */
  predicate Updatable(id: Option<nat>, network: nat, resources: Table<Resource>) {
    resources.Live(id) && resources.rows[id.value].network == network
  }

  /** What an update-or-create step leaves and the ID it yields; None is an error. */
  datatype Made<V> = Made(table: Table<V>, id: Option<nat>)

  function MadeResource(c: Pass, id: Option<nat>, v: Resource, t: Table<Resource>): Made<Resource> {
    if id.Some? && UpdateResource in c.down then Made(t, None)
    else if Updatable(id, v.network, t) then Made(t.Put(id.value, v), id)
    else if CreateResource in c.down then Made(t, None)
    else Made(t.Add(v), Some(t.next))
  }

  function MadeRecord(c: Pass, id: Option<nat>, v: Record, t: Table<Record>): Made<Record> {
    if id.Some? && UpdateRecord in c.down then Made(t, None)
    else if t.Live(id) && t.rows[id.value].zone == v.zone then Made(t.Put(id.value, v), id)
    else if CreateRecord in c.down then Made(t, None)
    else Made(t.Add(v), Some(t.next))
  }

  /** The record of a zone the object has left. */
  predicate Left(s: Status, zone: nat) {
    s.zone.Some? && s.zone.value != zone
  }

  function Cleared(s: Status, zone: nat, t: Table<Record>): Table<Record> {
    if Left(s, zone) && t.Live(s.record) && t.rows[s.record.value].zone == s.zone.value then t.Drop(s.record.value)
    else t
  }

  /** The ID to try an update with; cleared in memory when the zone changed. */
  function Kept(s: Status, zone: nat): Option<nat> {
    if s.zone == Some(zone) then s.record else None
  }

  function AfterRecord(c: Pass, w: World): World
    requires w.obj.Some? && Usable(w)
  {
    var s := w.obj.value.status;
    if ListZones in c.down then w
    else
      match FirstZone(w.zones, w.router.value.zone)
      case None => w
      case Some(zone) =>
        if Left(s, zone) && DeleteRecord in c.down then w
        else
          var record := Record(zone, RecordName(w), w.service.value.ip);
          var m := MadeRecord(c, Kept(s, zone), record, Cleared(s, zone, w.records));
          var v := w.(records := m.table);
          if m.id == None || PatchRecord in c.down then v
          else v.(obj := Some(v.obj.value.(status := s.(zone := Some(zone), record := m.id))))
  }

  ghost function AfterResource(c: Pass, d: Directory, w: World): World
    requires w.obj.Some? && Usable(w)
  {
    var o := w.obj.value;
    var network := w.router.value.network.value;
    var m := MadeResource(c, o.status.resource, Resource(network, w.service.value.ip, Targets(d, o.refs)), w.resources);
    var v := w.(resources := m.table);
    if m.id == None || PatchResource in c.down then v
    else v.(obj := Some(o.(finalizer := true, status := o.status.(network := Some(network), resource := m.id))))
  }

  /** The resource stage ends with its patch written. */
  predicate Records(c: Pass, w: World)
    requires w.obj.Some? && Usable(w)
  {
    var id := w.obj.value.status.resource;
    && PatchResource !in c.down
    && (id.Some? ==> UpdateResource !in c.down)
    && (Updatable(id, w.router.value.network.value, w.resources) || CreateResource !in c.down)
  }

  ghost function AfterSync(c: Pass, d: Directory, w: World): World
    requires w.obj.Some?
  {
    if !Reaches(c, d, w) then w
    else if !Records(c, w) then AfterResource(c, d, w)
    else AfterRecord(c, AfterResource(c, d, w))
  }

  function AfterDelete(c: Pass, w: World): World
    requires w.obj.Some?
  {
    var s := w.obj.value.status;
    var first := s.network.Some? && s.resource.Some?;
    if first && DeleteResource in c.down then w
    else
      var v := if first && Updatable(s.resource, s.network.value, w.resources)
               then w.(resources := w.resources.Drop(s.resource.value)) else w;
      var second := s.zone.Some? && s.record.Some?;
      if second && DeleteRecord in c.down then v
      else
        var u := if second && v.records.Live(s.record) && v.records.rows[s.record.value].zone == s.zone.value
                 then v.(records := v.records.Drop(s.record.value)) else v;
        if PatchFinalizer in c.down then u else u.(obj := None)
  }

  ghost function AfterPass(c: Pass, d: Directory, w: World): World {
    if GetObject in c.down || w.obj == None then w
    else if w.obj.value.deleting then AfterDelete(c, w)
    else AfterSync(c, d, w)
  }

  class NetworkResourceReconciler {
    var obj: Option<Object>
    var service: Option<Service>
    var router: Option<Router>
    var zones: seq<Zone>
    var resources: Table<Resource>
    var records: Table<Record>

    constructor (w: World)
      ensures State() == w
    {
      obj, service, router, zones := w.obj, w.service, w.router, w.zones;
      resources, records := w.resources, w.records;
    }

    function State(): World
      reads this
    {
      World(obj, service, router, zones, resources, records)
    }

    method ZoneByName(name: string) returns (id: Option<nat>)
      ensures id == FirstZone(zones, name)
    {
      for i := 0 to |zones|
        invariant FirstZone(zones, name) == FirstZone(zones[i..], name)
      {
        if zones[i].name == name {
          return Some(zones[i].id);
        }
      }
      return None;
    }

    /** The first closure: update the recorded resource, or create one when there is none to update. */
    method EnsureResource(c: Pass, id: Option<nat>, v: Resource) returns (made: Option<nat>)
      modifies this`resources
      ensures Made(resources, made) == MadeResource(c, id, v, old(resources))
    {
      if id != None {
        if UpdateResource in c.down {
          return None;
        }
        if id.value in resources.rows && resources.rows[id.value].network == v.network {
          resources := resources.Put(id.value, v);
          return id;
        }
      }
      if CreateResource in c.down {
        return None;
      }
      made := Some(resources.next);
      resources := resources.Add(v);
    }

    method EnsureRecord(c: Pass, id: Option<nat>, v: Record) returns (made: Option<nat>)
      modifies this`records
      ensures Made(records, made) == MadeRecord(c, id, v, old(records))
    {
      if id != None {
        if UpdateRecord in c.down {
          return None;
        }
        if id.value in records.rows && records.rows[id.value].zone == v.zone {
          records := records.Put(id.value, v);
          return id;
        }
      }
      if CreateRecord in c.down {
        return None;
      }
      made := Some(records.next);
      records := records.Add(v);
    }

    method SyncRecord(c: Pass) returns (err: bool)
      requires obj.Some? && Usable(State())
      modifies this
      ensures State() == AfterRecord(c, old(State()))
    {
      if ListZones in c.down {
        return true;
      }
      var zone := ZoneByName(router.value.zone);
      if zone == None {
        return true;
      }
      var status := obj.value.status;
      if status.zone != None && status.zone != zone {
        if DeleteRecord in c.down {
          return true;
        }
        if records.Live(status.record) && records.rows[status.record.value].zone == status.zone.value {
          records := records.Drop(status.record.value);
        }
        status := status.(zone := None, record := None);
      }
      var known := if status.zone != None then status.record else None;
      var id := EnsureRecord(c, known, Record(zone.value, RecordName(State()), service.value.ip));
      if id == None || PatchRecord in c.down {
        return true;
      }
      obj := Some(obj.value.(status := status.(zone := zone, record := id)));
      return false;
    }

    method Delete(c: Pass) returns (err: bool)
      requires obj.Some?
      modifies this
      ensures State() == AfterDelete(c, old(State()))
    {
      var s := obj.value.status;
      if s.network != None && s.resource != None {
        if DeleteResource in c.down {
          return true;
        }
        if resources.Live(s.resource) && resources.rows[s.resource.value].network == s.network.value {
          resources := resources.Drop(s.resource.value);
        }
      }
      if s.zone != None && s.record != None {
        if DeleteRecord in c.down {
          return true;
        }
        if records.Live(s.record) && records.rows[s.record.value].zone == s.zone.value {
          records := records.Drop(s.record.value);
        }
      }
      if PatchFinalizer in c.down {
        return true;
      }
      obj := None;
      return false;
    }

    method Reconcile(c: Pass, d: Directory) returns (err: bool)
      modifies this
      ensures State() == AfterPass(c, d, old(State()))
    {
      if GetObject in c.down || obj == None {
        return GetObject in c.down;
      }
      var o := obj.value;
      if o.deleting {
        err := Delete(c);
        return;
      }
      if GetService in c.down {
        return true;
      }
      if service == None || !service.value.clusterType || service.value.ip == "" || service.value.ip == "None" {
        return false;
      }
      if GetRouter in c.down {
        return true;
      }
      if router == None || router.value.network == None || router.value.peer == None {
        return false;
      }
      var lookups := set n | 0 <= n < |o.refs| && Lookup(n) in c.down;
      var groups := GetGroupIds(d, o.refs, lookups);
      if groups == None {
        return true;
      }
      var network := router.value.network.value;
      var id := EnsureResource(c, o.status.resource, Resource(network, service.value.ip, groups.value));
      if id == None || PatchResource in c.down {
        return true;
      }
      obj := Some(o.(finalizer := true, status := o.status.(network := Some(network), resource := id)));
      err := SyncRecord(c);
    }
  }

  // ----- leaks -----

  /** Every row made for the object is the one its persisted status names, with network and zone. */
  ghost predicate Named(w: World) {
    match w.obj
    case None => w.resources.rows == map[] && w.records.rows == map[]
    case Some(o) => ResourcesNamed(w) && RecordsNamed(w)
  }

  ghost predicate ResourcesNamed(w: World)
    requires w.obj.Some?
  {
    var s := w.obj.value.status;
    && (!w.obj.value.finalizer ==> s.resource == None && s.record == None)
    && (s.network.Some? <==> s.resource.Some?)
    && (s.resource.Some? ==> s.resource.value < w.resources.next)
    && (forall id :: id in w.resources.rows ==>
          s.resource == Some(id) && s.network == Some(w.resources.rows[id].network))
  }

  ghost predicate RecordsNamed(w: World)
    requires w.obj.Some?
  {
    var s := w.obj.value.status;
    && (s.zone.Some? <==> s.record.Some?)
    && (s.record.Some? ==> s.record.value < w.records.next)
    && (forall id :: id in w.records.rows ==> s.record == Some(id) && s.zone == Some(w.records.rows[id].zone))
  }

  /** The router now has another network, and the resource still lives in the old one. */
  predicate Stranded(w: World) {
    && w.obj.Some? && w.router.Some? && w.router.value.network.Some?
    && w.resources.Live(w.obj.value.status.resource)
    && w.resources.rows[w.obj.value.status.resource.value].network != w.router.value.network.value
  }

  /** The pass creates a network resource. */
  ghost predicate CreatesResource(c: Pass, d: Directory, w: World) {
    && w.obj.Some? && !w.obj.value.deleting && GetObject !in c.down && Reaches(c, d, w)
    && CreateResource !in c.down && (w.obj.value.status.resource.Some? ==> UpdateResource !in c.down)
    && !Updatable(w.obj.value.status.resource, w.router.value.network.value, w.resources)
  }

  /** The pass creates a DNS record. */
  ghost predicate CreatesRecord(c: Pass, d: Directory, w: World) {
    && w.obj.Some? && !w.obj.value.deleting && GetObject !in c.down && Reaches(c, d, w) && Records(c, w)
    && MakesRecord(c, w)
  }

  ghost predicate MakesRecord(c: Pass, w: World)
    requires w.obj.Some? && w.router.Some?
  {
    var s := w.obj.value.status;
    var zone := FirstZone(w.zones, w.router.value.zone);
    && zone.Some? && c.down !! {CreateRecord, ListZones}
    && (Left(s, zone.value) ==> DeleteRecord !in c.down)
    && (s.zone == zone && s.record.Some? ==> UpdateRecord !in c.down && !w.records.Live(s.record))
  }

  lemma ResourceStage(c: Pass, d: Directory, w: World)
    requires w.obj.Some? && Named(w) && !w.obj.value.deleting && GetObject !in c.down && Reaches(c, d, w)
    ensures var v := AfterResource(c, d, w);
            && v.obj.Some? && Usable(v) && v.obj.value.deleting == w.obj.value.deleting
            && (ResourcesNamed(v) <==> !(CreatesResource(c, d, w) && (PatchResource in c.down || Stranded(w))))
            && RecordsNamed(v) && (Records(c, w) ==> v.obj.value.finalizer)
            && (MakesRecord(c, v) <==> MakesRecord(c, w))
  {
    var v := AfterResource(c, d, w);
    if CreatesResource(c, d, w) {
      assert w.resources.next in v.resources.rows;
      if Stranded(w) {
        assert w.obj.value.status.resource.value in v.resources.rows;
      }
    }
  }

  lemma SyncLeaks(c: Pass, w: World)
    requires w.obj.Some? && Usable(w) && RecordsNamed(w) && w.obj.value.finalizer
    ensures Named(AfterRecord(c, w)) <==> ResourcesNamed(w) && !(MakesRecord(c, w) && PatchRecord in c.down)
  {
    AfterRecordFrame(c, w);
    RecordStageLeaks(c, w);
  }

  lemma AfterRecordFrame(c: Pass, w: World)
    requires w.obj.Some? && Usable(w)
    ensures var v := AfterRecord(c, w);
            && v == w.(obj := v.obj, records := v.records) && v.obj.Some?
            && v.obj.value == w.obj.value.(status := v.obj.value.status)
            && v.obj.value.status.resource == w.obj.value.status.resource
            && v.obj.value.status.network == w.obj.value.status.network
  {
  }

  lemma RecordStageLeaks(c: Pass, w: World)
    requires w.obj.Some? && Usable(w) && RecordsNamed(w)
    ensures RecordsNamed(AfterRecord(c, w)) <==> !(MakesRecord(c, w) && PatchRecord in c.down)
  {
    var v := AfterRecord(c, w);
    if v.records.next > w.records.next {
      assert w.records.next in v.records.rows;
    }
  }

  /** A pass leaves a row that no persisted status names exactly when a row it created is not written down,
      or it created a resource while the old one is stranded in the router's former network. */
  lemma PassLeaksExactlyWhen(c: Pass, d: Directory, w: World)
    requires Named(w)
    ensures Named(AfterPass(c, d, w)) <==>
            !(|| (CreatesResource(c, d, w) && (PatchResource in c.down || Stranded(w)))
              || (CreatesRecord(c, d, w) && PatchRecord in c.down))
  {
    if GetObject in c.down || w.obj == None || w.obj.value.deleting || !Reaches(c, d, w) {
      assert !CreatesResource(c, d, w) && !CreatesRecord(c, d, w);
    } else {
      ResourceStage(c, d, w);
      if Records(c, w) {
        SyncLeaks(c, AfterResource(c, d, w));
      }
    }
  }

  // ----- runs -----

  /** Between passes: Service, router, zones and groups change at will, rows may be deleted by others, the
      object may be marked for deletion and goes only without finalizer. */
  ghost predicate Environment(w: World, v: World) {
    && (w.obj == None ==> v.obj == None)
    && v.resources.next >= w.resources.next && v.records.next >= w.records.next
    && (w.obj.Some? && v.obj == None ==> !w.obj.value.finalizer)
    && (w.obj.Some? && v.obj.Some? ==>
          v.obj.value.status == w.obj.value.status && v.obj.value.finalizer == w.obj.value.finalizer)
    && (forall id :: id in v.resources.rows ==> id in w.resources.rows && v.resources.rows[id] == w.resources.rows[id])
    && (forall id :: id in v.records.rows ==> id in w.records.rows && v.records.rows[id] == w.records.rows[id])
  }

  datatype Step = Outside | Run(pass: Pass, groups: Directory)

  ghost predicate Follows(p: Step, w: World, v: World) {
    match p
    case Outside => Environment(w, v)
    case Run(c, d) => c.down !! {PatchResource, PatchRecord} && !Stranded(w) && v == AfterPass(c, d, w)
  }

  /** Passes that may fail at every call but the two status patches, while a network takes its resources
      with it: every row made for the object stays named. Deletion is over only when both rows are gone. */
  lemma {:induction false} RunsLeakNothing(ps: seq<Step>, ws: seq<World>)
    requires |ws| == |ps| + 1 && Named(ws[0])
    requires forall i :: 0 <= i < |ps| ==> Follows(ps[i], ws[i], ws[i + 1])
    ensures Named(ws[|ps|])
    ensures ws[|ps|].obj == None ==> ws[|ps|].resources.rows == map[] && ws[|ps|].records.rows == map[]
  {
    if ps != [] {
      var n := |ps| - 1;
      RunsLeakNothing(ps[..n], ws[..n + 1]);
      if ps[n].Run? {
        PassLeaksExactlyWhen(ps[n].pass, ps[n].groups, ws[n]);
      }
    }
  }

  // ----- what a clean pass achieves -----

  /** The server holds one resource and one record for the object: in the router's network and current zone,
      with the Service's address, both recorded. */
  ghost predicate Exact(d: Directory, w: World) {
    && w.obj.Some? && w.service.Some? && w.router.Some? && w.router.value.network.Some?
    && var o, svc, router := w.obj.value, w.service.value, w.router.value;
    && o.finalizer && o.status.network == router.network
    && o.status.resource.Some? && o.status.record.Some? && o.status.zone.Some?
    && InFirstZone(w.zones, router.zone, o.status.zone.value)
    && w.resources.rows ==
       map[o.status.resource.value := Resource(router.network.value, svc.ip, Targets(d, o.refs))]
    && w.records.rows ==
       map[o.status.record.value := Record(o.status.zone.value, svc.name + "." + svc.ns + "." + router.zone, svc.ip)]
  }

  /** id is the first zone of the name. */
  ghost predicate InFirstZone(zones: seq<Zone>, name: string, id: nat) {
    exists i :: 0 <= i < |zones| && zones[i] == Zone(id, name) && forall j :: 0 <= j < i ==> zones[j].name != name
  }

  /** The Service is of type ClusterIP and has an address, the router has network and routing peer, the group
      references resolve and the zone exists. */
  ghost predicate CanSync(d: Directory, w: World) {
    && w.obj.Some? && !w.obj.value.deleting && Resolves(d, w.obj.value.refs, {})
    && w.service.Some? && w.service.value.clusterType && w.service.value.ip != "" && w.service.value.ip != "None"
    && w.router.Some? && w.router.value.network.Some? && w.router.value.peer.Some?
    && exists i :: 0 <= i < |w.zones| && w.zones[i].name == w.router.value.zone
  }

  /** Otherwise the pass stops: before it touches the server when Service, router or groups are missing. */
  lemma UnreadyIsIdle(c: Pass, d: Directory, w: World)
    requires w.obj.Some? && !w.obj.value.deleting
    requires || w.service == None || !w.service.value.clusterType || w.service.value.ip in ["", "None"]
             || w.router == None || w.router.value.network == None || w.router.value.peer == None
             || !Resolves(d, w.obj.value.refs, {})
    ensures AfterPass(c, d, w) == w
  {
    if n :| 0 <= n < |w.obj.value.refs| && Unresolved(d, w.obj.value.refs, {}, n) {
      assert Unresolved(d, w.obj.value.refs, LookupsDown(c, w.obj.value.refs), n);
    }
  }

  lemma CleanRecord(c: Pass, w: World)
    requires c.down == {} && w.obj.Some? && Usable(w) && RecordsNamed(w)
    requires FirstZone(w.zones, w.router.value.zone).Some?
    ensures var v := AfterRecord(c, w);
            var zone := FirstZone(w.zones, w.router.value.zone);
            && v.obj.Some? && v.obj.value.status.record.Some? && v.obj.value.status.zone == zone
            && v.records.rows ==
               map[v.obj.value.status.record.value := Record(zone.value, RecordName(w), w.service.value.ip)]
  {
    var zone := FirstZone(w.zones, w.router.value.zone).value;
    var s := w.obj.value.status;
    var cleared := Cleared(s, zone, w.records);
    assert forall id :: id in cleared.rows ==> Kept(s, zone) == Some(id);
  }

  lemma CleanResource(c: Pass, d: Directory, w: World)
    requires c.down == {} && Named(w) && w.obj.Some? && Usable(w)
    ensures var v := AfterResource(c, d, w);
            && v == w.(obj := v.obj, resources := v.resources) && v.obj.Some?
            && v.obj.value.finalizer && v.obj.value.refs == w.obj.value.refs && RecordsNamed(v)
            && v.obj.value.status.network == w.router.value.network && v.obj.value.status.resource.Some?
            && var made := Resource(w.router.value.network.value, w.service.value.ip, Targets(d, w.obj.value.refs));
               v.resources.rows == map[v.obj.value.status.resource.value := made] <==> !Stranded(w)
  {
    var v := AfterResource(c, d, w);
    if Stranded(w) {
      var stranded := w.obj.value.status.resource.value;
      assert stranded in v.resources.rows && w.resources.next in v.resources.rows && stranded != w.resources.next;
    } else {
      assert v.resources.rows.Keys == {v.obj.value.status.resource.value};
    }
  }

  /** A clean pass makes the server exact if and only if no resource is stranded. */
  lemma CleanPassExactlyWhen(c: Pass, d: Directory, w: World)
    requires c.down == {} && Named(w) && CanSync(d, w)
    ensures Exact(d, AfterPass(c, d, w)) <==> !Stranded(w)
  {
    assert LookupsDown(c, w.obj.value.refs) == {};
    CleanResource(c, d, w);
    var v := AfterResource(c, d, w);
    AfterRecordFrame(c, v);
    CleanRecord(c, v);
  }

  /** After any such run, one clean pass makes the server exact: nothing is left in a previous zone. */
  lemma RunsEndExact(ps: seq<Step>, ws: seq<World>, c: Pass, d: Directory)
    requires |ws| == |ps| + 1 && Named(ws[0])
    requires forall i :: 0 <= i < |ps| ==> Follows(ps[i], ws[i], ws[i + 1])
    requires c.down == {} && CanSync(d, ws[|ps|]) && !Stranded(ws[|ps|])
    ensures Exact(d, AfterPass(c, d, ws[|ps|]))
  {
    RunsLeakNothing(ps, ws);
    CleanPassExactlyWhen(c, d, ws[|ps|]);
  }

  /** No resource moves to another network; one goes only with its object, as the recorded one of the recorded
      network. */
  ghost predicate ResourcesStay(w: World, v: World) {
    && (forall id :: id in w.resources.rows && id in v.resources.rows ==>
          v.resources.rows[id].network == w.resources.rows[id].network)
    && (forall id :: id in w.resources.rows && id !in v.resources.rows ==>
          && w.obj.Some? && w.obj.value.deleting && w.obj.value.status.resource == Some(id)
          && w.obj.value.status.network == Some(w.resources.rows[id].network))
  }

  /** No record moves to another zone; one goes only as the recorded one of the recorded zone, with its object or once
      the router names another zone. */
  ghost predicate RecordsStay(w: World, v: World) {
    && (forall id :: id in w.records.rows && id in v.records.rows ==>
          v.records.rows[id].zone == w.records.rows[id].zone)
    && (forall id :: id in w.records.rows && id !in v.records.rows ==>
          && w.obj.Some? && w.obj.value.status.record == Some(id)
          && w.obj.value.status.zone == Some(w.records.rows[id].zone)
          && (w.obj.value.deleting
              || (w.router.Some? && !InFirstZone(w.zones, w.router.value.zone, w.records.rows[id].zone))))
  }

  lemma ResourceStays(c: Pass, d: Directory, w: World)
    requires w.obj.Some? && Usable(w)
    ensures var v := AfterResource(c, d, w);
            && ResourcesStay(w, v) && v == w.(resources := v.resources, obj := v.obj)
            && v.obj.Some? && v.obj.value.deleting == w.obj.value.deleting
            && v.obj.value.status.record == w.obj.value.status.record
            && v.obj.value.status.zone == w.obj.value.status.zone
  {
  }

  lemma RecordStays(c: Pass, w: World)
    requires w.obj.Some? && Usable(w)
    ensures var v := AfterRecord(c, w); RecordsStay(w, v) && v.resources == w.resources
  {
    var zone := FirstZone(w.zones, w.router.value.zone);
    if zone.Some? {
      FirstIsOnly(w.zones, w.router.value.zone, zone.value);
    }
  }

  lemma DeletedStay(c: Pass, w: World)
    requires w.obj.Some? && w.obj.value.deleting
    ensures ResourcesStay(w, AfterDelete(c, w)) && RecordsStay(w, AfterDelete(c, w))
  {
  }

  /** Whatever fails, a pass leaves the rows in place. */
  lemma RowsStayInPlace(c: Pass, d: Directory, w: World)
    ensures ResourcesStay(w, AfterPass(c, d, w)) && RecordsStay(w, AfterPass(c, d, w))
  {
    if w.obj.Some? && w.obj.value.deleting {
      DeletedStay(c, w);
    } else if w.obj.Some? && Usable(w) {
      ResourceStays(c, d, w);
      RecordStays(c, AfterResource(c, d, w));
    }
  }

  lemma FirstIsOnly(zones: seq<Zone>, name: string, id: nat)
    requires InFirstZone(zones, name, id)
    ensures forall other :: InFirstZone(zones, name, other) ==> other == id
  {
  }

  /** A deletion pass lets the object go exactly when its calls succeed, and both rows are gone by then. */
  lemma DeletionExactlyWhen(c: Pass, d: Directory, w: World)
    requires Named(w) && w.obj.Some? && w.obj.value.deleting && GetObject !in c.down
    ensures AfterPass(c, d, w).obj == None <==>
            (&& PatchFinalizer !in c.down
             && (w.obj.value.status.resource.Some? ==> DeleteResource !in c.down)
             && (w.obj.value.status.record.Some? ==> DeleteRecord !in c.down))
    ensures AfterPass(c, d, w).obj == None ==>
              AfterPass(c, d, w).resources.rows == map[] && AfterPass(c, d, w).records.rows == map[]
  {
    var v := AfterPass(c, d, w);
    if v.obj == None {
      assert forall id :: id !in v.resources.rows;
      assert forall id :: id !in v.records.rows;
    }
  }
}
