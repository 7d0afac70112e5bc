/** The workspace data model of the mind-map renderer: node payloads, nodes,
    edges, graphs, the ordered graph table and the application state. */
module MindTypes {

  datatype Option<+T> = None | Some(value: T)

  /** One key of a partial object used as a spread patch: an absent key keeps
      the old value, a present key overwrites it (possibly with `undefined`). */
  datatype Update<+T> = Keep | Set(value: T)

  /** The payload of a node; every field but the title is optional. */
  datatype NodeData = NodeData(
    title: string,
    description: Option<string>,
    color: Option<string>,
    subgraphId: Option<string>,
    markdownContent: Option<string>,
    emoji: Option<string>)

  /** A `Partial<MindNodeData>`: which keys the patch carries, and their values. */
  datatype DataPatch = DataPatch(
    title: Update<string>,
    description: Update<Option<string>>,
    color: Update<Option<string>>,
    subgraphId: Update<Option<string>>,
    markdownContent: Update<Option<string>>,
    emoji: Update<Option<string>>)

  datatype Position = Position(x: real, y: real)

  datatype Node = Node(id: string, position: Position, data: NodeData, nodeType: string)

  datatype Edge = Edge(id: string, source: string, target: string)

  datatype Graph = Graph(id: string, nodes: seq<Node>, edges: seq<Edge>, rootNodeId: Option<string>)

  /** One key/value pair of the `graphs` record, kept in insertion order. */
  datatype Entry = Entry(key: string, graph: Graph)

  datatype AppState = AppState(graphs: seq<Entry>, currentGraphId: string, history: seq<string>)

  /** A JavaScript truthiness test on an optional string: `undefined` and `''` are falsy. */
  predicate Truthy(s: Option<string>)
  {
    s.Some? && s.value != ""
  }

  /** `{...d, ...p}`: the keys the patch carries win, every other field is kept. */
  function Merge(d: NodeData, p: DataPatch): (r: NodeData)
    ensures p.title.Keep? ==> r.title == d.title
    ensures p.title.Set? ==> r.title == p.title.value
    ensures p.description.Keep? ==> r.description == d.description
    ensures p.description.Set? ==> r.description == p.description.value
    ensures p.color.Keep? ==> r.color == d.color
    ensures p.color.Set? ==> r.color == p.color.value
    ensures p.subgraphId.Keep? ==> r.subgraphId == d.subgraphId
    ensures p.subgraphId.Set? ==> r.subgraphId == p.subgraphId.value
    ensures p.markdownContent.Keep? ==> r.markdownContent == d.markdownContent
    ensures p.markdownContent.Set? ==> r.markdownContent == p.markdownContent.value
    ensures p.emoji.Keep? ==> r.emoji == d.emoji
    ensures p.emoji.Set? ==> r.emoji == p.emoji.value
  {
    NodeData(
      Pick(p.title, d.title),
      Pick(p.description, d.description),
      Pick(p.color, d.color),
      Pick(p.subgraphId, d.subgraphId),
      Pick(p.markdownContent, d.markdownContent),
      Pick(p.emoji, d.emoji))
  }

  function Pick<T>(u: Update<T>, prev: T): (r: T)
  {
    match u
    case Keep => prev
    case Set(v) => v
  }

  /** The empty patch `{}`. */
  const NoChange := DataPatch(Keep, Keep, Keep, Keep, Keep, Keep)

  /** The patch that sets only `subgraphId`. */
  function SubgraphPatch(v: Option<string>): (r: DataPatch)
  {
    NoChange.(subgraphId := Set(v))
  }

  /** `{...p, ...q}`: applying the spread of two patches in turn. */
  function Then(p: DataPatch, q: DataPatch): (r: DataPatch)
  {
    DataPatch(
      Later(p.title, q.title),
      Later(p.description, q.description),
      Later(p.color, q.color),
      Later(p.subgraphId, q.subgraphId),
      Later(p.markdownContent, q.markdownContent),
      Later(p.emoji, q.emoji))
  }

  function Later<T>(u: Update<T>, v: Update<T>): (r: Update<T>)
  {
    if v.Set? then v else u
  }

  /** Spreading the empty patch leaves the data as it was. */
  lemma MergeNoChange(d: NodeData)
    ensures Merge(d, NoChange) == d
  {
  }

  /** Merging is idempotent: re-applying the same patch changes nothing more. */
  lemma MergeIdempotent(d: NodeData, p: DataPatch)
    ensures Merge(Merge(d, p), p) == Merge(d, p)
  {
  }

  /** Two successive merges are one merge with the later patch winning. */
  lemma MergeThen(d: NodeData, p: DataPatch, q: DataPatch)
    ensures Merge(Merge(d, p), q) == Merge(d, Then(p, q))
  {
  }
}
