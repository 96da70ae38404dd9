/**
 * The other half of the link invariants of src/components/RelacoesGraph.tsx:
 * besides every recorded event being a real co-occurrence, every
 * co-occurrence of a processed person is recorded. Once `processRelations`
 * has run for a person, each other participant of each of its events has a
 * link with it listing that event, and, below level 2, a node too.
 */
module GraphCoverage {
  import opened Types
  import opened LinkKeys
  import opened GraphModel
  import opened GraphInvariants

  /** The link of the pair `x`, `y` lists the event `eventId`. */
  ghost predicate Linked(acc: Acc, x: string, y: string, eventId: string)
    requires x != y
  {
    KeyOf(x, y) in acc.links && eventId in acc.links[KeyOf(x, y)].abordagens
  }

  /** `x` has a node below level 2, so the traversal goes on from its partners. */
  ghost predicate Shallow(acc: Acc, x: string) {
    x in acc.nodes && acc.nodes[x].level < 2
  }

  /** Every participant of the `i`-th event from the `j`-th on has met `x` there. */
  ghost predicate MetIn(events: seq<Abordagem>, acc: Acc, x: string, i: nat, j: nat)
    requires i < |events|
  {
    forall m :: j <= m < |events[i].pessoas| && events[i].pessoas[m].id != x ==>
      && Linked(acc, x, events[i].pessoas[m].id, events[i].id)
      && (Shallow(acc, x) ==> events[i].pessoas[m].id in acc.nodes)
  }

  /** `x` has met every participant of every event from the `i0`-th on that it is in. */
  ghost predicate CoveredFrom(events: seq<Abordagem>, acc: Acc, x: string, i0: nat) {
    forall i :: i0 <= i < |events| && Involves(events[i], x) ==> MetIn(events, acc, x, i, 0)
  }

  /** Every node that `r` has and `a` has not belongs to a person fully scanned in `r`. */
  ghost predicate NewCovered(events: seq<Abordagem>, a: Acc, r: Acc) {
    forall x :: x in r.nodes && x !in a.nodes ==> CoveredFrom(events, r, x, 0)
  }

  lemma {:induction false} MetInGrows(events: seq<Abordagem>, a: Acc, b: Acc, x: string, i: nat, j: nat)
    requires i < |events| && Grows(a, b) && x in a.nodes
    requires MetIn(events, a, x, i, j)
    ensures MetIn(events, b, x, i, j)
  {
    forall m | j <= m < |events[i].pessoas| && events[i].pessoas[m].id != x
      ensures Linked(b, x, events[i].pessoas[m].id, events[i].id)
    {
      var k := KeyOf(x, events[i].pessoas[m].id);
      assert LinkGrows(a.links[k], b.links[k]);
    }
  }

  lemma {:induction false} CoveredGrows(events: seq<Abordagem>, a: Acc, b: Acc, x: string, i0: nat)
    requires Grows(a, b) && x in a.nodes
    requires CoveredFrom(events, a, x, i0)
    ensures CoveredFrom(events, b, x, i0)
  {
    forall i | i0 <= i < |events| && Involves(events[i], x)
      ensures MetIn(events, b, x, i, 0)
    {
      MetInGrows(events, a, b, x, i, 0);
    }
  }

  /** Nodes that appear during a later stretch of the traversal are covered at its end. */
  lemma {:induction false} NewCoveredTrans(events: seq<Abordagem>, a: Acc, b: Acc, c: Acc)
    requires Grows(b, c)
    requires NewCovered(events, a, b) && NewCovered(events, b, c)
    requires forall x :: x in a.nodes ==> x in b.nodes
    ensures NewCovered(events, a, c)
  {
    forall x | x in c.nodes && x !in a.nodes
      ensures CoveredFrom(events, c, x, 0)
    {
      if x in b.nodes {
        CoveredGrows(events, b, c, x, 0);
      }
    }
  }

  /** Every person `processRelations` enters has met all its partners when it returns. */
  lemma {:induction false} ExpandCovers(events: seq<Abordagem>, acc: Acc, p: Pessoa, level: nat)
    requires Keyed(acc)
    ensures NewCovered(events, acc, Expand(events, acc, p, level))
    decreases Rank(level), 3, 0, 0
  {
    if p.id !in acc.visited && level <= 2 {
      var e := Enter(acc, p, level);
      EnterGrows(acc, p, level);
      ScanEventsCovers(events, e, p, level, 0);
    }
  }

  lemma {:induction false} ScanEventsCovers(events: seq<Abordagem>, acc: Acc, p: Pessoa, level: nat, i: nat)
    requires i <= |events| && Keyed(acc)
    requires p.id in acc.nodes && acc.nodes[p.id].level == level
    ensures NewCovered(events, acc, ScanEvents(events, acc, p, level, i))
    ensures CoveredFrom(events, ScanEvents(events, acc, p, level, i), p.id, i)
    decreases Rank(level), 2, |events| - i, 0
  {
    if i < |events| {
      var a := if Involves(events[i], p.id) then ScanPeople(events, acc, p, level, i, 0) else acc;
      if Involves(events[i], p.id) {
        ScanPeopleGrows(events, acc, p, level, i, 0);
        ScanPeopleCovers(events, acc, p, level, i, 0);
      } else {
        GrowsReflexive(acc);
      }
      var r := ScanEvents(events, a, p, level, i + 1);
      ScanEventsGrows(events, a, p, level, i + 1);
      ScanEventsCovers(events, a, p, level, i + 1);
      NewCoveredTrans(events, acc, a, r);
      if Involves(events[i], p.id) {
        MetInGrows(events, a, r, p.id, i, 0);
      }
    }
  }

  lemma {:induction false} ScanPeopleCovers(events: seq<Abordagem>, acc: Acc, p: Pessoa, level: nat, i: nat, j: nat)
    requires i < |events| && j <= |events[i].pessoas| && Keyed(acc)
    requires p.id in acc.nodes && acc.nodes[p.id].level == level
    ensures NewCovered(events, acc, ScanPeople(events, acc, p, level, i, j))
    ensures MetIn(events, ScanPeople(events, acc, p, level, i, j), p.id, i, j)
    decreases Rank(level), 1, |events| - i, |events[i].pessoas| - j
  {
    if j < |events[i].pessoas| {
      var q := events[i].pessoas[j];
      var a := Meet(events, acc, p, q, events[i].id, level);
      MeetGrows(events, acc, p, q, events[i].id, level);
      MeetCovers(events, acc, p, q, events[i].id, level);
      var r := ScanPeople(events, a, p, level, i, j + 1);
      ScanPeopleGrows(events, a, p, level, i, j + 1);
      ScanPeopleCovers(events, a, p, level, i, j + 1);
      NewCoveredTrans(events, acc, a, r);
      if q.id != p.id {
        var k := KeyOf(p.id, q.id);
        assert LinkGrows(a.links[k], r.links[k]);
      }
    }
  }

  lemma {:induction false} MeetCovers(events: seq<Abordagem>, acc: Acc, p: Pessoa, q: Pessoa, eventId: string, level: nat)
    requires Keyed(acc)
    ensures NewCovered(events, acc, Meet(events, acc, p, q, eventId, level))
    ensures q.id != p.id ==> Linked(Meet(events, acc, p, q, eventId, level), p.id, q.id, eventId)
    decreases Rank(level), 0, 0, 0
  {
    if q.id != p.id {
      var k := KeyOf(p.id, q.id);
      var touched := Touch(acc, k, eventId, level);
      TouchGrows(acc, k, eventId, level);
      if level < 2 {
        var r := Expand(events, touched, q, level + 1);
        ExpandGrows(events, touched, q, level + 1);
        ExpandCovers(events, touched, q, level + 1);
        assert LinkGrows(touched.links[k], r.links[k]);
      }
    }
  }
}
