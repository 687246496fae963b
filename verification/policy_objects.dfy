// Objects the OZResource and OZPolicy controllers share.
module PolicyObjects {
  import opened KeyNames
  import opened Tables

  datatype Protocol = Tcp | Udp

  datatype ResourceSpec = ResourceSpec(
    policyName: string,
    policySources: seq<string>,
    friendly: map<string, string>,
    tcpPorts: seq<int>,
    udpPorts: seq<int>)

  datatype ResourceStatus = ResourceStatus(
    policyName: Option<string>,
    tcpPorts: seq<int>,
    udpPorts: seq<int>,
    groups: seq<string>,
    policySources: seq<string>,
    friendly: map<string, string>,
    mapping: map<string, string>)

  datatype Resource = Resource(spec: ResourceSpec, status: ResourceStatus, deleting: bool)

  datatype PolicySpec = PolicySpec(
    name: string,
    description: string,
    sources: seq<string>,
    destinations: seq<string>,
    protocols: seq<Protocol>,
    ports: seq<int>,
    bidirectional: bool)

  /** OZPolicy; generatedBy is its annotation, "" when absent. */
  datatype Policy = Policy(
    spec: PolicySpec,
    generatedBy: string,
    finalizers: seq<string>,
    deleting: bool,
    managed: seq<Key>,
    tcpId: Option<nat>,
    udpId: Option<nat>)
}
