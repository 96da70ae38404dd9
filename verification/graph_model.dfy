/**
 * The relationship graph of src/components/RelacoesGraph.tsx, as values:
 * the node and link shapes, and `processRelations` written as three
 * mutually recursive functions, one per level of its nesting (the call
 * itself, the loop over events, the loop over an event's people). The
 * imperative rendering of the same traversal is `GraphBuild.Builder`.
 */
module GraphModel {
  import opened Wrappers
  import opened Types
  import opened LinkKeys

  /** The label of a person without a name. */
  const UnnamedLabel := "Nome não informado"

  /** A person in the graph, with the level at which the traversal found it. */
  datatype Node = Node(id: string, name: string, img: Option<string>, val: nat, pessoa: Pessoa, level: nat)

  /** What the link map holds per pair while the graph is built. */
  datatype LinkData = LinkData(value: nat, abordagens: seq<string>, isIndirect: bool)

  /** A link as handed to the renderer. */
  datatype Link = Link(source: string, target: string, value: nat, abordagens: seq<string>, isIndirect: bool)

  datatype GraphData = GraphData(nodes: seq<Node>, links: seq<Link>)

  /**
   * The traversal's working state: the processed-people set, the node map
   * and the link map. A JavaScript Map iterates in insertion order, so each
   * map comes with the order in which its keys were first inserted.
   */
  datatype Acc = Acc(
    visited: set<string>,
    nodes: map<string, Node>,
    nodeOrder: seq<string>,
    links: map<LinkKey, LinkData>,
    linkOrder: seq<LinkKey>)

  function EmptyAcc(): Acc {
    Acc({}, map[], [], map[], [])
  }

  /** `val`: 20 for the focal person, 15 at level 1, 10 beyond. */
  function SizeOf(level: nat): nat {
    if level == 0 then 20 else if level == 1 then 15 else 10
  }

  /** `pessoa.nome || 'Nome não informado'`: an empty name counts as missing. */
  function DisplayName(p: Pessoa): string {
    if p.nome.Some? && p.nome.value != "" then p.nome.value else UnnamedLabel
  }

  function NewNode(p: Pessoa, level: nat): Node {
    Node(p.id, DisplayName(p), p.fotoPerfil, SizeOf(level), p, level)
  }

  /** Marks `p` processed and gives it a node unless it has one. */
  function Enter(acc: Acc, p: Pessoa, level: nat): Acc {
    var acc := acc.(visited := acc.visited + {p.id});
    if p.id in acc.nodes then acc
    else acc.(nodes := acc.nodes[p.id := NewNode(p, level)], nodeOrder := acc.nodeOrder + [p.id])
  }

  /**
   * One match of a pair in an event: the link is created if missing, with
   * `isIndirect` set from the level; its value goes up by one, and the
   * event id is added unless it is there already.
   */
  function Touch(acc: Acc, key: LinkKey, eventId: string, level: nat): Acc {
    var data := if key in acc.links then acc.links[key] else LinkData(0, [], level > 0);
    var data := data.(value := data.value + 1,
                      abordagens := if eventId in data.abordagens then data.abordagens
                                    else data.abordagens + [eventId]);
    acc.(links := acc.links[key := data],
         linkOrder := if key in acc.links then acc.linkOrder else acc.linkOrder + [key])
  }

  /** The termination measure: levels only go up, and never past 2. */
  function Rank(level: nat): nat {
    if level <= 2 then 3 - level else 0
  }

  /** `processRelations(p, level)` */
  function Expand(events: seq<Abordagem>, acc: Acc, p: Pessoa, level: nat): Acc
    decreases Rank(level), 3, 0, 0
  {
    if p.id in acc.visited || level > 2 then acc
    else ScanEvents(events, Enter(acc, p, level), p, level, 0)
  }

  /** `abordagens.forEach(...)`, from the `i`-th event on. */
  function ScanEvents(events: seq<Abordagem>, acc: Acc, p: Pessoa, level: nat, i: nat): Acc
    requires i <= |events|
    decreases Rank(level), 2, |events| - i, 0
  {
    if i == |events| then acc
    else
      var acc := if Involves(events[i], p.id) then ScanPeople(events, acc, p, level, i, 0) else acc;
      ScanEvents(events, acc, p, level, i + 1)
  }

  /**
   * `abordagem.pessoas.forEach(...)` over the `i`-th event, from its `j`-th
   * person on.
   */
  function ScanPeople(events: seq<Abordagem>, acc: Acc, p: Pessoa, level: nat, i: nat, j: nat): Acc
    requires i < |events| && j <= |events[i].pessoas|
    decreases Rank(level), 1, |events| - i, |events[i].pessoas| - j
  {
    if j == |events[i].pessoas| then acc
    else ScanPeople(events, Meet(events, acc, p, events[i].pessoas[j], events[i].id, level), p, level, i, j + 1)
  }

  /**
   * The body of that loop: a person `q` other than `p` gets a link with
   * `p`, and is processed one level further while the level is below 2.
   */
  function Meet(events: seq<Abordagem>, acc: Acc, p: Pessoa, q: Pessoa, eventId: string, level: nat): Acc
    decreases Rank(level), 0, 0, 0
  {
    if q.id == p.id then acc
    else
      var touched := Touch(acc, KeyOf(p.id, q.id), eventId, level);
      if level < 2 then Expand(events, touched, q, level + 1) else touched
  }
}
