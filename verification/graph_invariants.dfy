/**
 * What holds of the relationship graph's working state throughout the
 * traversal, and the proof that `processRelations` keeps it and only ever
 * adds: nodes are never replaced, a link's `isIndirect` is never changed,
 * values and event lists only grow.
 */
module GraphInvariants {
  import opened Types
  import opened Lists
  import opened LinkKeys
  import opened GraphModel

  /** Some event has both people in it. */
  ghost predicate CoOccur(events: seq<Abordagem>, x: string, y: string) {
    exists i :: 0 <= i < |events| && Involves(events[i], x) && Involves(events[i], y)
  }

  /**
   * `x` is at most `n` co-occurrence steps away from the focal person
   * (levels stop at 2, so two steps is as far as this goes).
   */
  ghost predicate Within(events: seq<Abordagem>, focal: string, x: string, n: nat) {
    || x == focal
    || (n >= 1 && CoOccur(events, x, focal))
    || (n >= 2 && exists y :: CoOccur(events, x, y) && CoOccur(events, y, focal))
  }

  /** An event with this id has both people in it. */
  ghost predicate Witnessed(events: seq<Abordagem>, eventId: string, a: string, b: string) {
    exists i :: 0 <= i < |events| && events[i].id == eventId && Involves(events[i], a) && Involves(events[i], b)
  }

  ghost predicate NodeOk(events: seq<Abordagem>, focal: string, x: string, n: Node) {
    && n.id == x
    && n.pessoa.id == x
    && n.level <= 2
    && n.val == SizeOf(n.level)
  }

  ghost predicate LinkOk(events: seq<Abordagem>, focal: string, k: LinkKey, d: LinkData) {
    && StrLess(k.lo, k.hi)
    && 1 <= |d.abordagens| <= d.value
    && NoDup(d.abordagens)
    && (forall m :: 0 <= m < |d.abordagens| ==> Witnessed(events, d.abordagens[m], k.lo, k.hi))
    && (!d.isIndirect ==> k.lo == focal || k.hi == focal)
  }

  /** The node map, its insertion order and the processed set agree; every node is well formed. */
  ghost predicate NodesInv(events: seq<Abordagem>, focal: string, acc: Acc) {
    && Keyed(acc)
    && NoDup(acc.nodeOrder)
    && (forall x :: x in acc.nodeOrder <==> x in acc.nodes)
    && (forall x :: x in acc.nodes ==> NodeOk(events, focal, x, acc.nodes[x]))
  }

  /** The link map and its insertion order agree; every link is well formed. */
  ghost predicate LinksInv(events: seq<Abordagem>, focal: string, acc: Acc) {
    && NoDup(acc.linkOrder)
    && (forall k :: k in acc.linkOrder <==> k in acc.links)
    && (forall k :: k in acc.links ==> LinkOk(events, focal, k, acc.links[k]))
  }

  /** Every link has at least one endpoint with a node: the person being expanded. */
  ghost predicate EndpointsInv(acc: Acc) {
    forall k :: k in acc.links ==> k.lo in acc.nodes || k.hi in acc.nodes
  }

  /**
   * Every node's level bounds its co-occurrence distance from the focal
   * person. Kept apart from `Inv` and proved by its own induction below.
   */
  ghost predicate LevelsInv(events: seq<Abordagem>, focal: string, nodes: map<string, Node>) {
    forall x :: x in nodes ==> Within(events, focal, x, nodes[x].level)
  }

  /** The invariant of the working state. */
  ghost predicate Inv(events: seq<Abordagem>, focal: string, acc: Acc) {
    && NodesInv(events, focal, acc)
    && LinksInv(events, focal, acc)
    && EndpointsInv(acc)
  }

  ghost predicate LinkGrows(d: LinkData, e: LinkData) {
    && e.isIndirect == d.isIndirect
    && d.value <= e.value
    && d.abordagens <= e.abordagens
  }

  /** The processed set is exactly the set of people with a node. */
  ghost predicate Keyed(acc: Acc) {
    acc.nodes.Keys == acc.visited
  }

  /** `b` extends `a`: nothing is removed or replaced, a link's flag never changes. */
  ghost predicate Grows(a: Acc, b: Acc) {
    && a.visited <= b.visited
    && (forall x :: x in a.nodes ==> x in b.nodes && b.nodes[x] == a.nodes[x])
    && a.nodeOrder <= b.nodeOrder
    && (forall k :: k in a.links ==> k in b.links && LinkGrows(a.links[k], b.links[k]))
    && a.linkOrder <= b.linkOrder
  }

  lemma {:induction false} GrowsReflexive(a: Acc)
    ensures Grows(a, a)
  {
  }

  lemma {:induction false} GrowsTransitive(a: Acc, b: Acc, c: Acc)
    requires Grows(a, b) && Grows(b, c)
    ensures Grows(a, c)
  {
    assert a.nodeOrder == b.nodeOrder[..|a.nodeOrder|];
    assert a.linkOrder == b.linkOrder[..|a.linkOrder|];
    forall k | k in a.links
      ensures k in c.links && LinkGrows(a.links[k], c.links[k])
    {
      var d, e, f := a.links[k], b.links[k], c.links[k];
      assert d.abordagens == e.abordagens[..|d.abordagens|];
      assert e.abordagens == f.abordagens[..|e.abordagens|];
    }
  }

  lemma {:induction false} EmptyInv(events: seq<Abordagem>, focal: string)
    ensures Inv(events, focal, EmptyAcc())
  {
  }

  // The state only grows: nodes are never replaced, a link's `isIndirect`
  // is fixed when it is created, values and event lists only grow.

  lemma {:induction false} EnterGrows(acc: Acc, p: Pessoa, level: nat)
    requires Keyed(acc)
    ensures Keyed(Enter(acc, p, level))
    ensures Grows(acc, Enter(acc, p, level))
    ensures p.id in Enter(acc, p, level).nodes
    ensures p.id !in acc.nodes ==> Enter(acc, p, level).nodes[p.id] == NewNode(p, level)
  {
  }

  /**
   * A match creates the link with `isIndirect` set from the level, or
   * keeps the flag it has; either way the event ends up listed.
   */
  lemma {:induction false} TouchGrows(acc: Acc, key: LinkKey, eventId: string, level: nat)
    ensures Grows(acc, Touch(acc, key, eventId, level))
    ensures Touch(acc, key, eventId, level).nodes == acc.nodes
    ensures Touch(acc, key, eventId, level).visited == acc.visited
    ensures key in Touch(acc, key, eventId, level).links
    ensures eventId in Touch(acc, key, eventId, level).links[key].abordagens
    ensures Touch(acc, key, eventId, level).links[key].isIndirect
            == if key in acc.links then acc.links[key].isIndirect else level > 0
    ensures Touch(acc, key, eventId, level).links[key].value
            == if key in acc.links then acc.links[key].value + 1 else 1
  {
  }

  /** `processRelations` only adds to the state, and leaves its person processed. */
  lemma {:induction false} ExpandGrows(events: seq<Abordagem>, acc: Acc, p: Pessoa, level: nat)
    requires Keyed(acc)
    ensures Keyed(Expand(events, acc, p, level))
    ensures Grows(acc, Expand(events, acc, p, level))
    ensures level <= 2 ==> p.id in Expand(events, acc, p, level).nodes
    decreases Rank(level), 3, 0, 0
  {
    if p.id in acc.visited || level > 2 {
      GrowsReflexive(acc);
    } else {
      var a := Enter(acc, p, level);
      EnterGrows(acc, p, level);
      ScanEventsGrows(events, a, p, level, 0);
      GrowsTransitive(acc, a, ScanEvents(events, a, p, level, 0));
    }
  }

  lemma {:induction false} ScanEventsGrows(events: seq<Abordagem>, acc: Acc, p: Pessoa, level: nat, i: nat)
    requires i <= |events| && Keyed(acc)
    ensures Keyed(ScanEvents(events, acc, p, level, i))
    ensures Grows(acc, ScanEvents(events, acc, p, level, i))
    decreases Rank(level), 2, |events| - i, 0
  {
    if i == |events| {
      GrowsReflexive(acc);
    } else {
      var a := if Involves(events[i], p.id) then ScanPeople(events, acc, p, level, i, 0) else acc;
      if Involves(events[i], p.id) {
        ScanPeopleGrows(events, acc, p, level, i, 0);
      } else {
        GrowsReflexive(acc);
      }
      ScanEventsGrows(events, a, p, level, i + 1);
      GrowsTransitive(acc, a, ScanEvents(events, a, p, level, i + 1));
    }
  }

  lemma {:induction false} ScanPeopleGrows(events: seq<Abordagem>, acc: Acc, p: Pessoa, level: nat, i: nat, j: nat)
    requires i < |events| && j <= |events[i].pessoas| && Keyed(acc)
    ensures Keyed(ScanPeople(events, acc, p, level, i, j))
    ensures Grows(acc, ScanPeople(events, acc, p, level, i, j))
    decreases Rank(level), 1, |events| - i, |events[i].pessoas| - j
  {
    if j == |events[i].pessoas| {
      GrowsReflexive(acc);
    } else {
      var a := Meet(events, acc, p, events[i].pessoas[j], events[i].id, level);
      MeetGrows(events, acc, p, events[i].pessoas[j], events[i].id, level);
      ScanPeopleGrows(events, a, p, level, i, j + 1);
      GrowsTransitive(acc, a, ScanPeople(events, a, p, level, i, j + 1));
    }
  }

  lemma {:induction false} MeetGrows(events: seq<Abordagem>, acc: Acc, p: Pessoa, q: Pessoa, eventId: string, level: nat)
    requires Keyed(acc)
    ensures Keyed(Meet(events, acc, p, q, eventId, level))
    ensures Grows(acc, Meet(events, acc, p, q, eventId, level))
    ensures q.id != p.id && level < 2 ==> q.id in Meet(events, acc, p, q, eventId, level).nodes
    decreases Rank(level), 0, 0, 0
  {
    if q.id == p.id {
      GrowsReflexive(acc);
    } else {
      var touched := Touch(acc, KeyOf(p.id, q.id), eventId, level);
      TouchGrows(acc, KeyOf(p.id, q.id), eventId, level);
      if level < 2 {
        ExpandGrows(events, touched, q, level + 1);
        GrowsTransitive(acc, touched, Expand(events, touched, q, level + 1));
      }
    }
  }

  // The invariant holds throughout.

  /** Entering an unprocessed person keeps the invariant. */
  lemma {:induction false} EnterOk(events: seq<Abordagem>, focal: string, acc: Acc, p: Pessoa, level: nat)
    requires Inv(events, focal, acc)
    requires p.id !in acc.visited && level <= 2
    ensures Inv(events, focal, Enter(acc, p, level))
  {
    var b := Enter(acc, p, level);
    assert b.links == acc.links && b.linkOrder == acc.linkOrder;
    EnterNodesOk(events, focal, acc, p, level);
    assert LinksInv(events, focal, b);
  }

  lemma {:induction false} EnterNodesOk(events: seq<Abordagem>, focal: string, acc: Acc, p: Pessoa, level: nat)
    requires NodesInv(events, focal, acc)
    requires p.id !in acc.visited && level <= 2
    ensures NodesInv(events, focal, Enter(acc, p, level))
  {
    var b := Enter(acc, p, level);
    assert b.nodes == acc.nodes[p.id := NewNode(p, level)];
    assert b.nodeOrder == acc.nodeOrder + [p.id];
    assert NodeOk(events, focal, p.id, NewNode(p, level));
    forall x | x in b.nodes
      ensures NodeOk(events, focal, x, b.nodes[x])
    {
      if x != p.id {
        assert b.nodes[x] == acc.nodes[x];
      }
    }
  }

  /** The event that put `p` and `q` together also witnesses their key's two ends. */
  lemma {:induction false} WitnessedKey(events: seq<Abordagem>, eventId: string, p: string, q: string)
    requires p != q
    requires Witnessed(events, eventId, p, q)
    ensures Witnessed(events, eventId, KeyOf(p, q).lo, KeyOf(p, q).hi)
  {
    var key := KeyOf(p, q);
    var i :| 0 <= i < |events| && events[i].id == eventId && Involves(events[i], p) && Involves(events[i], q);
    assert Involves(events[i], key.lo) && Involves(events[i], key.hi);
  }

  /** Touching a well-formed link with a witnessed event leaves it well formed. */
  lemma {:induction false} TouchedOldLinkOk(events: seq<Abordagem>, focal: string, acc: Acc, key: LinkKey, eventId: string, level: nat)
    requires key in acc.links && LinkOk(events, focal, key, acc.links[key])
    requires Witnessed(events, eventId, key.lo, key.hi)
    ensures LinkOk(events, focal, key, Touch(acc, key, eventId, level).links[key])
  {
    var d, e := acc.links[key], Touch(acc, key, eventId, level).links[key];
    assert e.isIndirect == d.isIndirect && e.value == d.value + 1;
    assert e.abordagens == if eventId in d.abordagens then d.abordagens else d.abordagens + [eventId];
    assert forall m :: 0 <= m < |d.abordagens| ==> e.abordagens[m] == d.abordagens[m];
  }

  /** A link created by a match is well formed; only level 0, the focal person, creates direct ones. */
  lemma {:induction false} TouchedNewLinkOk(events: seq<Abordagem>, focal: string, acc: Acc, key: LinkKey, eventId: string, level: nat)
    requires key !in acc.links && StrLess(key.lo, key.hi)
    requires Witnessed(events, eventId, key.lo, key.hi)
    requires level == 0 ==> key.lo == focal || key.hi == focal
    ensures LinkOk(events, focal, key, Touch(acc, key, eventId, level).links[key])
  {
    var d := Touch(acc, key, eventId, level).links[key];
    assert d == LinkData(1, [eventId], level > 0);
    assert NoDup(d.abordagens);
    assert forall m :: 0 <= m < |d.abordagens| ==> d.abordagens[m] == eventId;
    assert forall m :: 0 <= m < |d.abordagens| ==> Witnessed(events, d.abordagens[m], key.lo, key.hi);
  }

  /** The link a match touches is well formed afterwards. */
  lemma {:induction false} TouchedLinkOk(events: seq<Abordagem>, focal: string, acc: Acc, p: string, q: string, eventId: string, level: nat)
    requires forall k :: k in acc.links ==> LinkOk(events, focal, k, acc.links[k])
    requires p != q
    requires Witnessed(events, eventId, p, q)
    requires level == 0 ==> p == focal
    ensures LinkOk(events, focal, KeyOf(p, q), Touch(acc, KeyOf(p, q), eventId, level).links[KeyOf(p, q)])
  {
    var key := KeyOf(p, q);
    WitnessedKey(events, eventId, p, q);
    if key in acc.links {
      TouchedOldLinkOk(events, focal, acc, key, eventId, level);
    } else {
      TouchedNewLinkOk(events, focal, acc, key, eventId, level);
    }
  }

  /** The link map after a match is well formed. */
  lemma {:induction false} TouchLinksOk(events: seq<Abordagem>, focal: string, acc: Acc, p: string, q: string, eventId: string, level: nat)
    requires LinksInv(events, focal, acc)
    requires p != q
    requires Witnessed(events, eventId, p, q)
    requires level == 0 ==> p == focal
    ensures LinksInv(events, focal, Touch(acc, KeyOf(p, q), eventId, level))
  {
    var key := KeyOf(p, q);
    var b := Touch(acc, key, eventId, level);
    TouchedLinkOk(events, focal, acc, p, q, eventId, level);
    forall k | k in b.links
      ensures LinkOk(events, focal, k, b.links[k])
    {
      if k != key {
        assert b.links[k] == acc.links[k];
      }
    }
  }

  /** A match of an expanded person `p` with a co-participant `q` keeps the invariant. */
  lemma {:induction false} TouchOk(events: seq<Abordagem>, focal: string, acc: Acc, p: string, q: string, eventId: string, level: nat)
    requires Inv(events, focal, acc)
    requires p in acc.nodes && p != q
    requires Witnessed(events, eventId, p, q)
    requires level == 0 ==> p == focal
    ensures Inv(events, focal, Touch(acc, KeyOf(p, q), eventId, level))
  {
    var b := Touch(acc, KeyOf(p, q), eventId, level);
    assert b.nodes == acc.nodes && b.nodeOrder == acc.nodeOrder && b.visited == acc.visited;
    TouchLinksOk(events, focal, acc, p, q, eventId, level);
  }

  /** `processRelations` keeps the invariant. */
  lemma {:induction false} ExpandOk(events: seq<Abordagem>, focal: string, acc: Acc, p: Pessoa, level: nat)
    requires Inv(events, focal, acc)
    requires level == 0 ==> p.id == focal
    ensures Inv(events, focal, Expand(events, acc, p, level))
    decreases Rank(level), 3, 0, 0
  {
    if p.id !in acc.visited && level <= 2 {
      var a := Enter(acc, p, level);
      EnterOk(events, focal, acc, p, level);
      EnterGrows(acc, p, level);
      ScanEventsOk(events, focal, a, p, level, 0);
    }
  }

  lemma {:induction false} ScanEventsOk(events: seq<Abordagem>, focal: string, acc: Acc, p: Pessoa, level: nat, i: nat)
    requires i <= |events|
    requires Inv(events, focal, acc)
    requires p.id in acc.nodes && level <= 2 && (level == 0 ==> p.id == focal)
    ensures Inv(events, focal, ScanEvents(events, acc, p, level, i))
    decreases Rank(level), 2, |events| - i, 0
  {
    if i < |events| {
      var a := if Involves(events[i], p.id) then ScanPeople(events, acc, p, level, i, 0) else acc;
      if Involves(events[i], p.id) {
        ScanPeopleOk(events, focal, acc, p, level, i, 0);
        ScanPeopleGrows(events, acc, p, level, i, 0);
      }
      ScanEventsOk(events, focal, a, p, level, i + 1);
    }
  }

  lemma {:induction false} ScanPeopleOk(events: seq<Abordagem>, focal: string, acc: Acc, p: Pessoa, level: nat, i: nat, j: nat)
    requires i < |events| && j <= |events[i].pessoas|
    requires Involves(events[i], p.id)
    requires Inv(events, focal, acc)
    requires p.id in acc.nodes && level <= 2 && (level == 0 ==> p.id == focal)
    ensures Inv(events, focal, ScanPeople(events, acc, p, level, i, j))
    decreases Rank(level), 1, |events| - i, |events[i].pessoas| - j
  {
    if j < |events[i].pessoas| {
      var q := events[i].pessoas[j];
      assert Involves(events[i], q.id);
      assert Witnessed(events, events[i].id, p.id, q.id);
      var a := Meet(events, acc, p, q, events[i].id, level);
      MeetOk(events, focal, acc, p, q, events[i].id, level);
      MeetGrows(events, acc, p, q, events[i].id, level);
      ScanPeopleOk(events, focal, a, p, level, i, j + 1);
    }
  }

  lemma {:induction false} MeetOk(events: seq<Abordagem>, focal: string, acc: Acc, p: Pessoa, q: Pessoa, eventId: string, level: nat)
    requires Inv(events, focal, acc)
    requires p.id in acc.nodes && level <= 2 && (level == 0 ==> p.id == focal)
    requires Witnessed(events, eventId, p.id, q.id)
    ensures Inv(events, focal, Meet(events, acc, p, q, eventId, level))
    decreases Rank(level), 0, 0, 0
  {
    if q.id != p.id {
      var touched := Touch(acc, KeyOf(p.id, q.id), eventId, level);
      TouchOk(events, focal, acc, p.id, q.id, eventId, level);
      if level < 2 {
        ExpandOk(events, focal, touched, q, level + 1);
      }
    }
  }

  // Levels bound the distance from the focal person.

  lemma {:induction false} EnterLevelsOk(events: seq<Abordagem>, focal: string, acc: Acc, p: Pessoa, level: nat)
    requires LevelsInv(events, focal, acc.nodes)
    requires Within(events, focal, p.id, level)
    ensures LevelsInv(events, focal, Enter(acc, p, level).nodes)
  {
    var b := Enter(acc, p, level);
    forall x | x in b.nodes
      ensures Within(events, focal, x, b.nodes[x].level)
    {
      if x != p.id || p.id in acc.nodes {
        assert b.nodes[x] == acc.nodes[x];
      }
    }
  }


  /** `processRelations` keeps every node within its level's distance of the focal person. */
  lemma {:induction false} ExpandLevels(events: seq<Abordagem>, focal: string, acc: Acc, p: Pessoa, level: nat)
    requires LevelsInv(events, focal, acc.nodes)
    requires level <= 2 ==> Within(events, focal, p.id, level)
    ensures LevelsInv(events, focal, Expand(events, acc, p, level).nodes)
    decreases Rank(level), 3, 0, 0
  {
    if p.id !in acc.visited && level <= 2 {
      EnterLevelsOk(events, focal, acc, p, level);
      ScanEventsLevels(events, focal, Enter(acc, p, level), p, level, 0);
    }
  }

  lemma {:induction false} ScanEventsLevels(events: seq<Abordagem>, focal: string, acc: Acc, p: Pessoa, level: nat, i: nat)
    requires i <= |events|
    requires LevelsInv(events, focal, acc.nodes)
    requires level <= 2 && Within(events, focal, p.id, level)
    ensures LevelsInv(events, focal, ScanEvents(events, acc, p, level, i).nodes)
    decreases Rank(level), 2, |events| - i, 0
  {
    if i < |events| {
      var a := if Involves(events[i], p.id) then ScanPeople(events, acc, p, level, i, 0) else acc;
      if Involves(events[i], p.id) {
        ScanPeopleLevels(events, focal, acc, p, level, i, 0);
      }
      ScanEventsLevels(events, focal, a, p, level, i + 1);
    }
  }

  lemma {:induction false} ScanPeopleLevels(events: seq<Abordagem>, focal: string, acc: Acc, p: Pessoa, level: nat, i: nat, j: nat)
    requires i < |events| && j <= |events[i].pessoas|
    requires Involves(events[i], p.id)
    requires LevelsInv(events, focal, acc.nodes)
    requires level <= 2 && Within(events, focal, p.id, level)
    ensures LevelsInv(events, focal, ScanPeople(events, acc, p, level, i, j).nodes)
    decreases Rank(level), 1, |events| - i, |events[i].pessoas| - j
  {
    if j < |events[i].pessoas| {
      var q := events[i].pessoas[j];
      assert Involves(events[i], q.id);
      assert CoOccur(events, q.id, p.id);
      MeetLevels(events, focal, acc, p, q, events[i].id, level);
      ScanPeopleLevels(events, focal, Meet(events, acc, p, q, events[i].id, level), p, level, i, j + 1);
    }
  }

  lemma {:induction false} MeetLevels(events: seq<Abordagem>, focal: string, acc: Acc, p: Pessoa, q: Pessoa, eventId: string, level: nat)
    requires LevelsInv(events, focal, acc.nodes)
    requires level <= 2 && Within(events, focal, p.id, level)
    requires CoOccur(events, q.id, p.id)
    ensures LevelsInv(events, focal, Meet(events, acc, p, q, eventId, level).nodes)
    decreases Rank(level), 0, 0, 0
  {
    if q.id != p.id {
      var touched := Touch(acc, KeyOf(p.id, q.id), eventId, level);
      assert touched.nodes == acc.nodes;
      if level < 2 {
        if level == 1 && p.id != focal {
          assert CoOccur(events, p.id, focal);
          assert CoOccur(events, q.id, p.id) && CoOccur(events, p.id, focal);
        }
        assert Within(events, focal, q.id, level + 1);
        ExpandLevels(events, focal, touched, q, level + 1);
      }
    }
  }
}
