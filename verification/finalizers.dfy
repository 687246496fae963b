// Finalizers the controllers set and look for.
module Finalizers {

  const CLEANUP := "openzro.io/cleanup"
  const GROUP_CLEANUP := "openzro.io/group-cleanup"
  const RESOURCE_CLEANUP := "openzro.io/resource-cleanup"
  const ROUTING_PEER_CLEANUP := "openzro.io/routing-peer-cleanup"
}
