/** Node selectors, planner intents and the atomic tasks the executor takes. */
module Intents {
  import opened Values

  datatype LinkType = RelationLinkType | TypeLinkType | FlowLinkType

  datatype Selector = ByName(value: string) | ById(value: string)

  /** What an assignment stores: a literal text, a reference to an entity, or a list of such values. */
  datatype AssignedValue = TextValue(text: string) | EntityValue(name: string) | ListValue(values: seq<AssignedValue>)

  datatype Intent =
    | UpsertNode(node: Selector, metadata: Metadata)
    | CreateLink(source: Selector, target: Selector, linkType: LinkType, linkMetadata: Metadata)
    | AssignAttribute(assignee: Selector, field: string, value: AssignedValue)
    | FlowLink(source: Selector, target: Selector)
    | ExtinguishNode(doomed: Selector)
    | SelectNodes(pattern: string, condition: Option<string>)
    | SetFormula(atom: string, field: string, formula: string)
    | AddGuardian(atom: string, field: string, operator: string, threshold: Json, action: string)
    | Bulk(intents: seq<Intent>)

  datatype Task =
    | Ingest(name: string, metadata: Metadata)
    | IngestAssigned(name: string, field: string, value: AssignedValue)
    | UpdateAsteroid(id: string, metadata: Metadata)
    | UpdateAssigned(id: string, field: string, value: AssignedValue)
    | Link(linkType: LinkType, metadata: Metadata)
    | LinkIds(sourceId: string, targetId: string, linkType: LinkType, metadata: Metadata)
    | Delete(name: string)
    | Extinguish(id: string)
    | Select(pattern: string, condition: Option<string>)
    | Formula(atom: string, field: string, formula: string)
    | Guardian(atom: string, field: string, operator: string, threshold: Json, action: string)
}
