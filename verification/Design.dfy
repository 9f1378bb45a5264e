// The design graph that people draw and approve (src/mission_orchestrator/domain/design.py).
module Design {
  import opened Workplan

  datatype Provenance = Analyzer | Human | Agent
  datatype Location = InRepository | External
  datatype Intent = Keep | Create | Change | Remove
  datatype Level = SystemLevel | PackageLevel | CodeLevel
  datatype Kind = UnknownKind | SystemKind | PackageKind | ModuleKind | ClassKind | FunctionKind | MethodKind

  datatype Node = Node(
    id: string,
    nodeLabel: string,
    level: Level,
    provenance: Provenance,
    location: Location,
    intent: Intent,
    parentId: Option<string>,
    locator: Option<string>,
    description: string,
    kind: Kind,
    targetPath: string,
    qualifiedName: string,
    signature: string,
    docstring: string,
    satisfies: seq<string>,
    acceptance: seq<string>)

  datatype Edge = Edge(source: string, target: string, relation: string, provenance: Provenance, intent: Intent)

  datatype Snapshot = Snapshot(snapshotId: string, nodes: seq<Node>, edges: seq<Edge>)
}
