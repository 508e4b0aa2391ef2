/** The infrastructure graph that a scan produces, and the resource and relation names it uses. */
module Graphs {

  datatype NodeType =
    | SERVER | REVERSE_PROXY | DOMAIN | UPSTREAM | DOCKER_ENGINE | DOCKER_COMPOSE_PROJECT
    | DOCKER_CONTAINER | NETWORK | MOUNT | DIRECTORY | PORT | SYSTEMD_SERVICE | HOST_LISTENER

  datatype RelationType =
    | CONTAINS | ROUTES_TO | ROUTES_THROUGH | PROXIES_TO | RESOLVES_TO | RUNS | EXPOSES
    | CONNECTED_TO | MOUNTS | LOCATED_IN | LISTENS_ON | OWNED_BY | TARGETS | PUBLISHED_AS

  datatype InfraNode = InfraNode(id: string, title: string, nodeType: NodeType, metadata: map<string, string>)

  datatype InfraEdge = InfraEdge(id: string, source: string, target: string, relation: RelationType)

  datatype InfraGraph = InfraGraph(nodes: seq<InfraNode>, edges: seq<InfraEdge>)

  function TypeName(t: NodeType): string {
    match t
    case SERVER => "SERVER"
    case REVERSE_PROXY => "REVERSE_PROXY"
    case DOMAIN => "DOMAIN"
    case UPSTREAM => "UPSTREAM"
    case DOCKER_ENGINE => "DOCKER_ENGINE"
    case DOCKER_COMPOSE_PROJECT => "DOCKER_COMPOSE_PROJECT"
    case DOCKER_CONTAINER => "DOCKER_CONTAINER"
    case NETWORK => "NETWORK"
    case MOUNT => "MOUNT"
    case DIRECTORY => "DIRECTORY"
    case PORT => "PORT"
    case SYSTEMD_SERVICE => "SYSTEMD_SERVICE"
    case HOST_LISTENER => "HOST_LISTENER"
  }

  function RelationName(r: RelationType): string {
    match r
    case CONTAINS => "CONTAINS"
    case ROUTES_TO => "ROUTES_TO"
    case ROUTES_THROUGH => "ROUTES_THROUGH"
    case PROXIES_TO => "PROXIES_TO"
    case RESOLVES_TO => "RESOLVES_TO"
    case RUNS => "RUNS"
    case EXPOSES => "EXPOSES"
    case CONNECTED_TO => "CONNECTED_TO"
    case MOUNTS => "MOUNTS"
    case LOCATED_IN => "LOCATED_IN"
    case LISTENS_ON => "LISTENS_ON"
    case OWNED_BY => "OWNED_BY"
    case TARGETS => "TARGETS"
    case PUBLISHED_AS => "PUBLISHED_AS"
  }
}
