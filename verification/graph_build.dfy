/**
 * Building the relationship graph of src/components/RelacoesGraph.tsx:
 * `loadData`'s traversal from the focal person and the flattening of the
 * two maps into the arrays the renderer receives. `Builder` is the
 * traversal as the source runs it, updating its maps and set in place;
 * `Build` is the value it produces, and the lemmas below state what the
 * source promises of that value.
 */
module GraphBuild {
  import opened Wrappers
  import opened Types
  import opened Lists
  import opened LinkKeys
  import opened GraphModel
  import opened GraphInvariants
  import opened GraphCoverage

  /** `Array.from(nodes.values())`: the nodes in insertion order. */
  function NodeList(acc: Acc): seq<Node>
    requires forall x :: x in acc.nodeOrder ==> x in acc.nodes
  {
    seq(|acc.nodeOrder|, k requires 0 <= k < |acc.nodeOrder| => acc.nodes[acc.nodeOrder[k]])
  }

  /** One entry of the link map as the renderer receives it: the key's two ids become source and target. */
  function ToLink(key: LinkKey, d: LinkData): Link {
    Link(key.lo, key.hi, d.value, d.abordagens, d.isIndirect)
  }

  /** `Array.from(links.entries()).map(...)`: the links in insertion order. */
  function LinkList(acc: Acc): seq<Link>
    requires forall k :: k in acc.linkOrder ==> k in acc.links
  {
    seq(|acc.linkOrder|, n requires 0 <= n < |acc.linkOrder| => ToLink(acc.linkOrder[n], acc.links[acc.linkOrder[n]]))
  }

  function Flatten(acc: Acc): GraphData
    requires forall x :: x in acc.nodeOrder ==> x in acc.nodes
    requires forall k :: k in acc.linkOrder ==> k in acc.links
  {
    GraphData(NodeList(acc), LinkList(acc))
  }

  /** The traversal's final state: `processRelations(pessoa, 0)` from empty maps. */
  function Traverse(events: seq<Abordagem>, focal: Pessoa): Acc {
    Expand(events, EmptyAcc(), focal, 0)
  }

  /** The graph data `loadData` sets for the focal person. */
  function Build(events: seq<Abordagem>, focal: Pessoa): GraphData {
    TraverseFacts(events, focal);
    Flatten(Traverse(events, focal))
  }

  /** What the invariants give about the final state. */
  lemma {:induction false} TraverseFacts(events: seq<Abordagem>, focal: Pessoa)
    ensures Inv(events, focal.id, Traverse(events, focal))
    ensures LevelsInv(events, focal.id, Traverse(events, focal).nodes)
    ensures Grows(Enter(EmptyAcc(), focal, 0), Traverse(events, focal))
  {
    var e := Enter(EmptyAcc(), focal, 0);
    EmptyInv(events, focal.id);
    EnterOk(events, focal.id, EmptyAcc(), focal, 0);
    EnterGrows(EmptyAcc(), focal, 0);
    ScanEventsOk(events, focal.id, e, focal, 0, 0);
    ScanEventsGrows(events, e, focal, 0, 0);
    ExpandLevels(events, focal.id, EmptyAcc(), focal, 0);
  }

  /** The focal person's node comes first, at level 0 with size 20. */
  lemma {:induction false} BuildFocalFirst(events: seq<Abordagem>, focal: Pessoa)
    ensures |Build(events, focal).nodes| >= 1
    ensures Build(events, focal).nodes[0] == NewNode(focal, 0)
    ensures Build(events, focal).nodes[0].val == 20
  {
    TraverseFacts(events, focal);
    var e := Enter(EmptyAcc(), focal, 0);
    var acc := Traverse(events, focal);
    assert e.nodeOrder == [focal.id];
    assert acc.nodeOrder[0] == focal.id;
  }

  /** No person has two nodes, and each node carries its own person. */
  lemma {:induction false} BuildNodeIdsUnique(events: seq<Abordagem>, focal: Pessoa)
    ensures var ns := Build(events, focal).nodes;
      forall a, b :: 0 <= a < b < |ns| ==> ns[a].id != ns[b].id
    ensures var ns := Build(events, focal).nodes;
      forall a :: 0 <= a < |ns| ==> ns[a].pessoa.id == ns[a].id
  {
    TraverseFacts(events, focal);
    var acc := Traverse(events, focal);
    var ns := Build(events, focal).nodes;
    forall a, b | 0 <= a < b < |ns|
      ensures ns[a].id != ns[b].id
    {
      assert ns[a].id == acc.nodeOrder[a] && ns[b].id == acc.nodeOrder[b];
    }
  }

  /**
   * Levels are 0, 1 or 2 with sizes 20, 15 and 10; level 0 is the focal
   * person's alone; and a node's level bounds how many co-occurrence
   * steps it is from the focal person.
   */
  lemma {:induction false} BuildNodeLevels(events: seq<Abordagem>, focal: Pessoa)
    ensures var ns := Build(events, focal).nodes;
      forall a :: 0 <= a < |ns| ==>
        && ns[a].level <= 2
        && ns[a].val == (if ns[a].level == 0 then 20 else if ns[a].level == 1 then 15 else 10)
        && (ns[a].level == 0 <==> ns[a].id == focal.id)
        && Within(events, focal.id, ns[a].id, ns[a].level)
  {
    TraverseFacts(events, focal);
    var acc := Traverse(events, focal);
    var ns := Build(events, focal).nodes;
    assert acc.nodes[focal.id] == NewNode(focal, 0);
    forall a | 0 <= a < |ns|
      ensures ns[a].level <= 2 && (ns[a].level == 0 <==> ns[a].id == focal.id)
      ensures Within(events, focal.id, ns[a].id, ns[a].level)
    {
      var x := acc.nodeOrder[a];
      assert ns[a] == acc.nodes[x];
      assert NodeOk(events, focal.id, x, acc.nodes[x]);
      assert Within(events, focal.id, x, acc.nodes[x].level);
    }
  }

  /**
   * Every link joins two different people, source before target in string
   * order; it lists at least one event, without repeats, each with both
   * people in it, and its value is at least the number of events listed;
   * a direct link touches the focal person; one end always has a node.
   */
  lemma {:induction false} BuildLinksWellFormed(events: seq<Abordagem>, focal: Pessoa)
    ensures var g := Build(events, focal);
      forall n :: 0 <= n < |g.links| ==>
        && StrLess(g.links[n].source, g.links[n].target)
        && 1 <= |g.links[n].abordagens| <= g.links[n].value
        && NoDup(g.links[n].abordagens)
        && (forall m :: 0 <= m < |g.links[n].abordagens| ==>
              Witnessed(events, g.links[n].abordagens[m], g.links[n].source, g.links[n].target))
        && (!g.links[n].isIndirect ==> g.links[n].source == focal.id || g.links[n].target == focal.id)
  {
    TraverseFacts(events, focal);
    var acc := Traverse(events, focal);
    var g := Build(events, focal);
    forall n | 0 <= n < |g.links|
      ensures LinkOk(events, focal.id, LinkKey(g.links[n].source, g.links[n].target),
                     LinkData(g.links[n].value, g.links[n].abordagens, g.links[n].isIndirect))
    {
      var k := acc.linkOrder[n];
      assert g.links[n] == ToLink(k, acc.links[k]);
    }
  }

  /** Some node of the graph is the person `x`. */
  ghost predicate HasNode(g: GraphData, x: string) {
    exists a :: 0 <= a < |g.nodes| && g.nodes[a].id == x
  }

  /** One end of every link has a node, and no two links join the same pair. */
  lemma {:induction false} BuildLinkEnds(events: seq<Abordagem>, focal: Pessoa)
    ensures var g := Build(events, focal);
      forall n :: 0 <= n < |g.links| ==> HasNode(g, g.links[n].source) || HasNode(g, g.links[n].target)
    ensures var g := Build(events, focal);
      forall n, m :: 0 <= n < m < |g.links| ==>
        (g.links[n].source, g.links[n].target) != (g.links[m].source, g.links[m].target)
  {
    TraverseFacts(events, focal);
    var acc := Traverse(events, focal);
    var g := Build(events, focal);
    forall n | 0 <= n < |g.links|
      ensures HasNode(g, g.links[n].source) || HasNode(g, g.links[n].target)
    {
      var k := acc.linkOrder[n];
      assert g.links[n] == ToLink(k, acc.links[k]);
      var x := if k.lo in acc.nodes then k.lo else k.hi;
      assert x in acc.nodeOrder;
      var a := IndexIn(acc.nodeOrder, x);
      assert g.nodes[a] == acc.nodes[x];
      assert NodeOk(events, focal.id, x, acc.nodes[x]);
      assert g.nodes[a].id == x;
    }
    forall n, m | 0 <= n < m < |g.links|
      ensures (g.links[n].source, g.links[n].target) != (g.links[m].source, g.links[m].target)
    {
      var k, l := acc.linkOrder[n], acc.linkOrder[m];
      assert g.links[n] == ToLink(k, acc.links[k]) && g.links[m] == ToLink(l, acc.links[l]);
    }
  }

  /** Some link of the graph joins `x` and `y` and lists the event `eventId`. */
  ghost predicate HasLink(g: GraphData, x: string, y: string, eventId: string) {
    exists n :: 0 <= n < |g.links| && {g.links[n].source, g.links[n].target} == {x, y} && eventId in g.links[n].abordagens
  }

  /**
   * Every co-occurrence of a person with a node is in the graph: for each
   * event the person is in, each other participant has a link with it
   * listing that event, and, when the person's level is 0 or 1, a node.
   */
  lemma {:induction false} BuildCoversEvents(events: seq<Abordagem>, focal: Pessoa)
    ensures var g := Build(events, focal);
      forall a, i, m ::
        && 0 <= a < |g.nodes| && 0 <= i < |events| && Involves(events[i], g.nodes[a].id)
        && 0 <= m < |events[i].pessoas| && events[i].pessoas[m].id != g.nodes[a].id
        ==>
        && HasLink(g, g.nodes[a].id, events[i].pessoas[m].id, events[i].id)
        && (g.nodes[a].level < 2 ==> HasNode(g, events[i].pessoas[m].id))
  {
    TraverseFacts(events, focal);
    ExpandCovers(events, EmptyAcc(), focal, 0);
    var acc := Traverse(events, focal);
    var g := Build(events, focal);
    forall a, i, m |
      && 0 <= a < |g.nodes| && 0 <= i < |events| && Involves(events[i], g.nodes[a].id)
      && 0 <= m < |events[i].pessoas| && events[i].pessoas[m].id != g.nodes[a].id
      ensures HasLink(g, g.nodes[a].id, events[i].pessoas[m].id, events[i].id)
      ensures g.nodes[a].level < 2 ==> HasNode(g, events[i].pessoas[m].id)
    {
      var x := acc.nodeOrder[a];
      NodeAt(events, focal.id, acc, a);
      assert CoveredFrom(events, acc, x, 0);
      assert MetIn(events, acc, x, i, 0);
      LinkedInGraph(events, focal.id, acc, x, events[i].pessoas[m].id, events[i].id);
      if acc.nodes[x].level < 2 {
        NodeInGraph(events, focal.id, acc, events[i].pessoas[m].id);
      }
    }
  }

  /** The `a`-th node of the flattened graph is the entry of the `a`-th inserted id. */
  lemma {:induction false} NodeAt(events: seq<Abordagem>, focal: string, acc: Acc, a: nat)
    requires Inv(events, focal, acc) && a < |acc.nodeOrder|
    ensures |Flatten(acc).nodes| == |acc.nodeOrder|
    ensures acc.nodeOrder[a] in acc.nodes
    ensures Flatten(acc).nodes[a] == acc.nodes[acc.nodeOrder[a]]
    ensures Flatten(acc).nodes[a].id == acc.nodeOrder[a]
  {
    assert NodeOk(events, focal, acc.nodeOrder[a], acc.nodes[acc.nodeOrder[a]]);
  }

  lemma {:induction false} NodeInGraph(events: seq<Abordagem>, focal: string, acc: Acc, y: string)
    requires Inv(events, focal, acc) && y in acc.nodes
    ensures HasNode(Flatten(acc), y)
  {
    var b := IndexIn(acc.nodeOrder, y);
    NodeAt(events, focal, acc, b);
  }

  lemma {:induction false} LinkedInGraph(events: seq<Abordagem>, focal: string, acc: Acc, x: string, y: string, eventId: string)
    requires Inv(events, focal, acc) && x != y
    requires Linked(acc, x, y, eventId)
    ensures HasLink(Flatten(acc), x, y, eventId)
  {
    var k := KeyOf(x, y);
    var n := IndexIn(acc.linkOrder, k);
    assert Flatten(acc).links[n] == ToLink(k, acc.links[k]);
  }

  /** A person more than two co-occurrence steps from the focal person has no node. */
  lemma {:induction false} BuildOmitsDistant(events: seq<Abordagem>, focal: Pessoa, x: string)
    requires !Within(events, focal.id, x, 2)
    ensures !HasNode(Build(events, focal), x)
  {
    BuildNodeLevels(events, focal);
  }

  /** The position of a member of a sequence. */
  lemma {:induction false} IndexIn<T>(s: seq<T>, x: T) returns (a: nat)
    requires x in s
    ensures a < |s| && s[a] == x
  {
    a :| a < |s| && s[a] == x;
  }

  /** A focal person in no event gets a graph of one node and no links. */
  lemma {:induction false} IsolatedFocal(events: seq<Abordagem>, focal: Pessoa)
    requires forall i :: 0 <= i < |events| ==> !Involves(events[i], focal.id)
    ensures Build(events, focal) == GraphData([NewNode(focal, 0)], [])
  {
    var e := Enter(EmptyAcc(), focal, 0);
    ScanEventsUninvolved(events, e, focal, 0, 0);
    assert Traverse(events, focal) == e;
  }

  lemma {:induction false} ScanEventsUninvolved(events: seq<Abordagem>, acc: Acc, p: Pessoa, level: nat, i: nat)
    requires i <= |events|
    requires forall i' :: i <= i' < |events| ==> !Involves(events[i'], p.id)
    ensures ScanEvents(events, acc, p, level, i) == acc
    decreases |events| - i
  {
    if i < |events| {
      ScanEventsUninvolved(events, acc, p, level, i + 1);
    }
  }

  /**
   * The traversal as the source runs it: the processed set and the two
   * maps are fields updated in place, and `processRelations` recurses from
   * inside its two loops.
   */
  class Builder {
    const events: seq<Abordagem>
    var visited: set<string>
    var nodes: map<string, Node>
    var nodeOrder: seq<string>
    var links: map<LinkKey, LinkData>
    var linkOrder: seq<LinkKey>

    /** The fields as one value of the functional model. */
    function State(): Acc
      reads this
    {
      Acc(visited, nodes, nodeOrder, links, linkOrder)
    }

    constructor(events: seq<Abordagem>)
      ensures this.events == events
      ensures State() == EmptyAcc()
    {
      this.events := events;
      visited := {};
      nodes := map[];
      nodeOrder := [];
      links := map[];
      linkOrder := [];
    }

    /**
     * Creates the link under `linkId` if missing, with `isIndirect` set from
     * the level, counts one more match and records the event once.
     */
    method TouchLink(linkId: LinkKey, eventId: string, level: nat)
      modifies this
      ensures State() == Touch(old(State()), linkId, eventId, level)
    {
      var isNew := linkId !in links;
      var linkData := if isNew then LinkData(0, [], level > 0) else links[linkId];
      linkData := linkData.(value := linkData.value + 1);
      if eventId !in linkData.abordagens {
        linkData := linkData.(abordagens := linkData.abordagens + [eventId]);
      }
      links := links[linkId := linkData];
      if isNew {
        linkOrder := linkOrder + [linkId];
      }
    }

    /** `processRelations(pessoaAtual, level)` */
    method ProcessRelations(pessoaAtual: Pessoa, level: nat)
      modifies this
      ensures State() == Expand(events, old(State()), pessoaAtual, level)
      decreases Rank(level)
    {
      if pessoaAtual.id in visited || level > 2 {
        return;
      }
      visited := visited + {pessoaAtual.id};
      if pessoaAtual.id !in nodes {
        nodes := nodes[pessoaAtual.id := NewNode(pessoaAtual, level)];
        nodeOrder := nodeOrder + [pessoaAtual.id];
      }
      ghost var entered := State();
      assert entered == Enter(old(State()), pessoaAtual, level);
      var i := 0;
      while i < |events|
        invariant i <= |events|
        invariant ScanEvents(events, State(), pessoaAtual, level, i) == ScanEvents(events, entered, pessoaAtual, level, 0)
      {
        var abordagem := events[i];
        if Involves(abordagem, pessoaAtual.id) {
          ghost var before := State();
          var j := 0;
          while j < |abordagem.pessoas|
            invariant j <= |abordagem.pessoas|
            invariant ScanPeople(events, State(), pessoaAtual, level, i, j) == ScanPeople(events, before, pessoaAtual, level, i, 0)
          {
            var outraPessoa := abordagem.pessoas[j];
            ghost var here := State();
            if outraPessoa.id != pessoaAtual.id {
              TouchLink(KeyOf(pessoaAtual.id, outraPessoa.id), abordagem.id, level);
              if level < 2 {
                ProcessRelations(outraPessoa, level + 1);
              }
            }
            assert State() == Meet(events, here, pessoaAtual, outraPessoa, abordagem.id, level);
            j := j + 1;
          }
        }
        i := i + 1;
      }
    }
  }

  /** `loadData` without the fetch: the traversal from the focal person, then the flattening. */
  method BuildGraph(events: seq<Abordagem>, focal: Pessoa) returns (g: GraphData)
    ensures g == Build(events, focal)
  {
    var b := new Builder(events);
    b.ProcessRelations(focal, 0);
    TraverseFacts(events, focal);
    var acc := b.State();
    g := GraphData(NodeList(acc), LinkList(acc));
  }
}
