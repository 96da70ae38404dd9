/**
 * Small worked cases of the relationship graph of
 * src/components/RelacoesGraph.tsx, computed from the model. They show
 * three things the traversal does as written: a link's value counts each
 * match from both ends, a person expanded at level 2 still gets links to
 * co-participants that never get a node, and the depth-first order can
 * give a direct co-participant of the focal person level 2.
 *
 * The step lemmas take the event list as a parameter `E` pinned to its
 * constant by `requires`, so that the solver sees a plain name at each
 * step instead of unfolding the constant every time.
 */
module GraphScenarios {
  import opened Wrappers
  import opened Types
  import opened LinkKeys
  import opened GraphModel
  import opened GraphBuild

  /** A person known only by id. */
  function Person(id: string): Pessoa {
    Pessoa(id, None, None, None, None, None, None, None, None, [], [], None)
  }

  function Event(id: string, pessoas: seq<Pessoa>): Abordagem {
    Abordagem(id, "", Localizacao("", "", "", None, None), pessoas)
  }

  /** One turn of `abordagens.forEach` in `processRelations(p, level)`: the `i`-th event. */
  function Round(events: seq<Abordagem>, acc: Acc, p: Pessoa, level: nat, i: nat): Acc
    requires i < |events|
  {
    if Involves(events[i], p.id) then ScanPeople(events, acc, p, level, i, 0) else acc
  }

  lemma {:induction false} ScanTwoEvents(events: seq<Abordagem>, acc: Acc, p: Pessoa, level: nat)
    requires |events| == 2
    ensures ScanEvents(events, acc, p, level, 0) == Round(events, Round(events, acc, p, level, 0), p, level, 1)
  {
    var a := Round(events, acc, p, level, 0);
    assert ScanEvents(events, a, p, level, 1) == ScanEvents(events, Round(events, a, p, level, 1), p, level, 2);
  }

  lemma {:induction false} ScanThreeEvents(events: seq<Abordagem>, acc: Acc, p: Pessoa, level: nat)
    requires |events| == 3
    ensures ScanEvents(events, acc, p, level, 0)
         == Round(events, Round(events, Round(events, acc, p, level, 0), p, level, 1), p, level, 2)
  {
    var a := Round(events, acc, p, level, 0);
    var b := Round(events, a, p, level, 1);
    assert ScanEvents(events, b, p, level, 2) == ScanEvents(events, Round(events, b, p, level, 2), p, level, 3);
  }

  /** `abordagem.pessoas.forEach` over an event of two people. */
  lemma {:induction false} ScanTwoPeople(events: seq<Abordagem>, acc: Acc, p: Pessoa, level: nat, i: nat)
    requires i < |events| && |events[i].pessoas| == 2
    ensures ScanPeople(events, acc, p, level, i, 0)
         == Meet(events, Meet(events, acc, p, events[i].pessoas[0], events[i].id, level),
                 p, events[i].pessoas[1], events[i].id, level)
  {
    var a := Meet(events, acc, p, events[i].pessoas[0], events[i].id, level);
    var b := Meet(events, a, p, events[i].pessoas[1], events[i].id, level);
    assert ScanPeople(events, b, p, level, i, 2) == b;
  }

  lemma {:induction false} InvolvesTwo(a: Abordagem, pid: string)
    requires |a.pessoas| == 2
    ensures Involves(a, pid) <==> a.pessoas[0].id == pid || a.pessoas[1].id == pid
  {
    if a.pessoas[0].id == pid {
      assert Involves(a, pid);
    } else if a.pessoas[1].id == pid {
      assert Involves(a, pid);
    }
  }

  lemma {:induction false} Keys()
    ensures KeyOf("A", "B") == LinkKey("A", "B") && KeyOf("B", "A") == LinkKey("A", "B")
    ensures KeyOf("B", "C") == LinkKey("B", "C") && KeyOf("C", "B") == LinkKey("B", "C")
    ensures KeyOf("C", "D") == LinkKey("C", "D")
    ensures KeyOf("A", "C") == LinkKey("A", "C") && KeyOf("C", "A") == LinkKey("A", "C")
  {
    assert StrLess("A", "B") && StrLess("B", "C") && StrLess("C", "D") && StrLess("A", "C");
  }

  // The first steps are the same in all three cases: A is entered, meets
  // B in e1, and B is entered at level 1.

  lemma {:induction false} StartSteps()
    ensures Enter(EmptyAcc(), Person("A"), 0) == ChainS1()
    ensures Touch(ChainS1(), LinkKey("A", "B"), "e1", 0) == ChainT1()
  {
    assert [] + [LinkKey("A", "B")] == ChainT1().linkOrder;
    assert [] + ["e1"] == ["e1"];
  }

  // A chain A-B, B-C, C-D explored from A, and its states in the order the traversal reaches them.

  function ChainEvents(): seq<Abordagem> {
    [Event("e1", [Person("A"), Person("B")]), Event("e2", [Person("B"), Person("C")]), Event("e3", [Person("C"), Person("D")])]
  }

  /** A entered at level 0. */
  function ChainS1(): Acc {
    Acc({"A"}, map["A" := NewNode(Person("A"), 0)], ["A"], map[], [])
  }

  /** A has met B in e1. */
  function ChainT1(): Acc {
    ChainS1().(links := map[LinkKey("A", "B") := LinkData(1, ["e1"], false)], linkOrder := [LinkKey("A", "B")])
  }

  /** B entered at level 1. */
  function ChainS2(): Acc {
    ChainT1().(visited := {"A", "B"}, nodes := ChainT1().nodes["B" := NewNode(Person("B"), 1)], nodeOrder := ["A", "B"])
  }

  /** B has met A in e1 again. */
  function ChainT2(): Acc {
    ChainS2().(links := map[LinkKey("A", "B") := LinkData(2, ["e1"], false)])
  }

  /** B has met C in e2. */
  function ChainT3(): Acc {
    ChainT2().(links := ChainT2().links[LinkKey("B", "C") := LinkData(1, ["e2"], true)],
               linkOrder := [LinkKey("A", "B"), LinkKey("B", "C")])
  }

  /** C entered at level 2. */
  function ChainS3(): Acc {
    ChainT3().(visited := {"A", "B", "C"}, nodes := ChainT3().nodes["C" := NewNode(Person("C"), 2)],
               nodeOrder := ["A", "B", "C"])
  }

  /** C has met B in e2 again. */
  function ChainT4(): Acc {
    ChainS3().(links := ChainS3().links[LinkKey("B", "C") := LinkData(2, ["e2"], true)])
  }

  /** C has met D in e3: the final state. */
  function ChainT5(): Acc {
    ChainT4().(links := ChainT4().links[LinkKey("C", "D") := LinkData(1, ["e3"], true)],
               linkOrder := [LinkKey("A", "B"), LinkKey("B", "C"), LinkKey("C", "D")])
  }

  lemma {:induction false} ChainInvolves()
    ensures Involves(ChainEvents()[0], "A") && !Involves(ChainEvents()[1], "A") && !Involves(ChainEvents()[2], "A")
    ensures Involves(ChainEvents()[0], "B") && Involves(ChainEvents()[1], "B") && !Involves(ChainEvents()[2], "B")
    ensures !Involves(ChainEvents()[0], "C") && Involves(ChainEvents()[1], "C") && Involves(ChainEvents()[2], "C")
  {
    var E := ChainEvents();
    InvolvesTwo(E[0], "A"); InvolvesTwo(E[1], "A"); InvolvesTwo(E[2], "A");
    InvolvesTwo(E[0], "B"); InvolvesTwo(E[1], "B"); InvolvesTwo(E[2], "B");
    InvolvesTwo(E[0], "C"); InvolvesTwo(E[1], "C"); InvolvesTwo(E[2], "C");
  }

  /** The steps of B's expansion, one state to the next. */
  lemma {:induction false} ChainStepsB()
    ensures Enter(ChainT1(), Person("B"), 1) == ChainS2()
    ensures Touch(ChainS2(), LinkKey("A", "B"), "e1", 1) == ChainT2()
    ensures Touch(ChainT2(), LinkKey("B", "C"), "e2", 1) == ChainT3()
  {
    assert [LinkKey("A", "B")] + [LinkKey("B", "C")] == ChainT3().linkOrder;
    assert [] + ["e2"] == ["e2"];
  }

  /** The steps of C's expansion, one state to the next. */
  lemma {:induction false} ChainStepsC()
    ensures Enter(ChainT3(), Person("C"), 2) == ChainS3()
    ensures Touch(ChainS3(), LinkKey("B", "C"), "e2", 2) == ChainT4()
    ensures Touch(ChainT4(), LinkKey("C", "D"), "e3", 2) == ChainT5()
  {
    assert [LinkKey("A", "B"), LinkKey("B", "C")] + [LinkKey("C", "D")] == ChainT5().linkOrder;
    assert [] + ["e3"] == ["e3"];
  }

  /** C, entered at level 2, links with B and D but expands neither. */
  lemma {:induction false} ChainExpandC(E: seq<Abordagem>)
    requires E == ChainEvents()  // a name for the constant: see the module note
    ensures Expand(E, ChainT3(), Person("C"), 2) == ChainT5()
  {
    var c := Person("C");
    Keys();
    ChainInvolves();
    ChainStepsC();
    ScanThreeEvents(E, ChainS3(), c, 2);
    ScanTwoPeople(E, ChainS3(), c, 2, 1);
    ScanTwoPeople(E, ChainT4(), c, 2, 2);
    assert Round(E, ChainS3(), c, 2, 0) == ChainS3();
    assert Round(E, ChainS3(), c, 2, 1) == ChainT4();
    assert Round(E, ChainT4(), c, 2, 2) == ChainT5();
  }

  /** B, entered at level 1, meets A again (already processed) and then C. */
  lemma {:induction false} ChainExpandB(E: seq<Abordagem>)
    requires E == ChainEvents()  // a name for the constant: see the module note
    ensures Expand(E, ChainT1(), Person("B"), 1) == ChainT5()
  {
    var b := Person("B");
    Keys();
    ChainInvolves();
    ChainStepsB();
    ChainExpandC(E);
    ScanThreeEvents(E, ChainS2(), b, 1);
    ScanTwoPeople(E, ChainS2(), b, 1, 0);
    ScanTwoPeople(E, ChainT2(), b, 1, 1);
    assert Round(E, ChainS2(), b, 1, 0) == ChainT2();
    assert Round(E, ChainT2(), b, 1, 1) == ChainT5();
    assert Round(E, ChainT5(), b, 1, 2) == ChainT5();
  }

  /** The traversal from A ends in `ChainT5`. */
  lemma {:induction false} ChainTraverse(E: seq<Abordagem>)
    requires E == ChainEvents()  // a name for the constant: see the module note
    ensures Traverse(E, Person("A")) == ChainT5()
  {
    var a := Person("A");
    Keys();
    ChainInvolves();
    StartSteps();
    ChainExpandB(E);
    ScanThreeEvents(E, ChainS1(), a, 0);
    ScanTwoPeople(E, ChainS1(), a, 0, 0);
    assert Round(E, ChainS1(), a, 0, 0) == ChainT5();
    assert Round(E, ChainT5(), a, 0, 1) == ChainT5();
    assert Round(E, ChainT5(), a, 0, 2) == ChainT5();
  }

  /**
   * A chain A-B, B-C, C-D from A: A, B and C get levels 0, 1 and 2; D gets
   * no node, yet C's expansion links C with D; and the A-B and B-C links
   * have value 2 from one event each.
   */
  lemma {:induction false} ChainFromA()
    ensures
      var a, b, c := Person("A"), Person("B"), Person("C");
      Build(ChainEvents(), a)
      == GraphData(
        [NewNode(a, 0), NewNode(b, 1), NewNode(c, 2)],
        [Link("A", "B", 2, ["e1"], false), Link("B", "C", 2, ["e2"], true), Link("C", "D", 1, ["e3"], true)])
  {
    ChainTraverse(ChainEvents());
    ChainFlatten();
  }

  lemma {:induction false} ChainFlatten()
    ensures Flatten(ChainT5())
      == GraphData(
        [NewNode(Person("A"), 0), NewNode(Person("B"), 1), NewNode(Person("C"), 2)],
        [Link("A", "B", 2, ["e1"], false), Link("B", "C", 2, ["e2"], true), Link("C", "D", 1, ["e3"], true)])
  {
  }

  // Two events that both hold A and B, explored from A.

  function PairEvents(): seq<Abordagem> {
    [Event("e1", [Person("A"), Person("B")]), Event("e2", [Person("A"), Person("B")])]
  }

  /** A and B entered, with the A-B link at `value` listing `abordagens`. */
  function PairState(value: nat, abordagens: seq<string>): Acc {
    Acc({"A", "B"}, map["A" := NewNode(Person("A"), 0), "B" := NewNode(Person("B"), 1)], ["A", "B"],
        map[LinkKey("A", "B") := LinkData(value, abordagens, false)], [LinkKey("A", "B")])
  }

  lemma {:induction false} PairInvolves()
    ensures Involves(PairEvents()[0], "A") && Involves(PairEvents()[1], "A")
    ensures Involves(PairEvents()[0], "B") && Involves(PairEvents()[1], "B")
  {
    var E := PairEvents();
    InvolvesTwo(E[0], "A"); InvolvesTwo(E[1], "A");
    InvolvesTwo(E[0], "B"); InvolvesTwo(E[1], "B");
  }

  lemma {:induction false} PairSteps()
    ensures Enter(ChainT1(), Person("B"), 1) == PairState(1, ["e1"])
    ensures Touch(PairState(1, ["e1"]), LinkKey("A", "B"), "e1", 1) == PairState(2, ["e1"])
    ensures Touch(PairState(2, ["e1"]), LinkKey("A", "B"), "e2", 1) == PairState(3, ["e1", "e2"])
    ensures Touch(PairState(3, ["e1", "e2"]), LinkKey("A", "B"), "e2", 0) == PairState(4, ["e1", "e2"])
  {
    assert ["e1"] + ["e2"] == ["e1", "e2"];
  }

  /** B, entered at level 1, meets the already processed A in both events. */
  lemma {:induction false} PairExpandB(E: seq<Abordagem>)
    requires E == PairEvents()  // a name for the constant: see the module note
    ensures Expand(E, ChainT1(), Person("B"), 1) == PairState(3, ["e1", "e2"])
  {
    var b := Person("B");
    Keys();
    PairInvolves();
    PairSteps();
    ScanTwoEvents(E, PairState(1, ["e1"]), b, 1);
    ScanTwoPeople(E, PairState(1, ["e1"]), b, 1, 0);
    ScanTwoPeople(E, PairState(2, ["e1"]), b, 1, 1);
    assert Round(E, PairState(1, ["e1"]), b, 1, 0) == PairState(2, ["e1"]);
    assert Round(E, PairState(2, ["e1"]), b, 1, 1) == PairState(3, ["e1", "e2"]);
  }

  lemma {:induction false} PairTraverse(E: seq<Abordagem>)
    requires E == PairEvents()  // a name for the constant: see the module note
    ensures Traverse(E, Person("A")) == PairState(4, ["e1", "e2"])
  {
    var a := Person("A");
    Keys();
    PairInvolves();
    StartSteps();
    PairSteps();
    PairExpandB(E);
    ScanTwoEvents(E, ChainS1(), a, 0);
    ScanTwoPeople(E, ChainS1(), a, 0, 0);
    ScanTwoPeople(E, PairState(3, ["e1", "e2"]), a, 0, 1);
    assert Round(E, ChainS1(), a, 0, 0) == PairState(3, ["e1", "e2"]);
    assert Round(E, PairState(3, ["e1", "e2"]), a, 0, 1) == PairState(4, ["e1", "e2"]);
  }

  /**
   * Two events holding A and B give one A-B link listing both, with value
   * 4: each event is counted once from A and once more from B.
   */
  lemma {:induction false} TwoSharedEvents()
    ensures
      var a, b := Person("A"), Person("B");
      Build(PairEvents(), a)
      == GraphData([NewNode(a, 0), NewNode(b, 1)], [Link("A", "B", 4, ["e1", "e2"], false)])
  {
    PairTraverse(PairEvents());
    PairFlatten();
  }

  lemma {:induction false} PairFlatten()
    ensures Flatten(PairState(4, ["e1", "e2"]))
      == GraphData([NewNode(Person("A"), 0), NewNode(Person("B"), 1)], [Link("A", "B", 4, ["e1", "e2"], false)])
  {
  }

  // A triangle A-B, B-C, A-C explored from A. Up to C's entry the states
  // are those of the chain, whose first two events are the same.

  function TriangleEvents(): seq<Abordagem> {
    [Event("e1", [Person("A"), Person("B")]), Event("e2", [Person("B"), Person("C")]), Event("e3", [Person("A"), Person("C")])]
  }

  /** C, at level 2, has met A in e3: the A-C link is made indirect. */
  function TriangleT5(): Acc {
    ChainT4().(links := ChainT4().links[LinkKey("A", "C") := LinkData(1, ["e3"], true)],
               linkOrder := [LinkKey("A", "B"), LinkKey("B", "C"), LinkKey("A", "C")])
  }

  /** A has met C in e3: the final state. */
  function TriangleT6(): Acc {
    TriangleT5().(links := TriangleT5().links[LinkKey("A", "C") := LinkData(2, ["e3"], true)])
  }

  lemma {:induction false} TriangleInvolves()
    ensures Involves(TriangleEvents()[0], "A") && !Involves(TriangleEvents()[1], "A") && Involves(TriangleEvents()[2], "A")
    ensures Involves(TriangleEvents()[0], "B") && Involves(TriangleEvents()[1], "B") && !Involves(TriangleEvents()[2], "B")
    ensures !Involves(TriangleEvents()[0], "C") && Involves(TriangleEvents()[1], "C") && Involves(TriangleEvents()[2], "C")
  {
    var E := TriangleEvents();
    InvolvesTwo(E[0], "A"); InvolvesTwo(E[1], "A"); InvolvesTwo(E[2], "A");
    InvolvesTwo(E[0], "B"); InvolvesTwo(E[1], "B"); InvolvesTwo(E[2], "B");
    InvolvesTwo(E[0], "C"); InvolvesTwo(E[1], "C"); InvolvesTwo(E[2], "C");
  }

  lemma {:induction false} TriangleSteps()
    ensures Touch(ChainT4(), LinkKey("A", "C"), "e3", 2) == TriangleT5()
    ensures Touch(TriangleT5(), LinkKey("A", "C"), "e3", 0) == TriangleT6()
  {
    assert [LinkKey("A", "B"), LinkKey("B", "C")] + [LinkKey("A", "C")] == TriangleT5().linkOrder;
    assert [] + ["e3"] == ["e3"];
  }

  lemma {:induction false} TriangleExpandC(E: seq<Abordagem>)
    requires E == TriangleEvents()  // a name for the constant: see the module note
    ensures Expand(E, ChainT3(), Person("C"), 2) == TriangleT5()
  {
    var c := Person("C");
    Keys();
    TriangleInvolves();
    ChainStepsC();
    TriangleSteps();
    ScanThreeEvents(E, ChainS3(), c, 2);
    ScanTwoPeople(E, ChainS3(), c, 2, 1);
    ScanTwoPeople(E, ChainT4(), c, 2, 2);
    assert Round(E, ChainS3(), c, 2, 0) == ChainS3();
    assert Round(E, ChainS3(), c, 2, 1) == ChainT4();
    assert Round(E, ChainT4(), c, 2, 2) == TriangleT5();
  }

  lemma {:induction false} TriangleExpandB(E: seq<Abordagem>)
    requires E == TriangleEvents()  // a name for the constant: see the module note
    ensures Expand(E, ChainT1(), Person("B"), 1) == TriangleT5()
  {
    var b := Person("B");
    Keys();
    TriangleInvolves();
    ChainStepsB();
    TriangleExpandC(E);
    ScanThreeEvents(E, ChainS2(), b, 1);
    ScanTwoPeople(E, ChainS2(), b, 1, 0);
    ScanTwoPeople(E, ChainT2(), b, 1, 1);
    assert Round(E, ChainS2(), b, 1, 0) == ChainT2();
    assert Round(E, ChainT2(), b, 1, 1) == TriangleT5();
    assert Round(E, TriangleT5(), b, 1, 2) == TriangleT5();
  }

  lemma {:induction false} TriangleTraverse(E: seq<Abordagem>)
    requires E == TriangleEvents()  // a name for the constant: see the module note
    ensures Traverse(E, Person("A")) == TriangleT6()
  {
    var a := Person("A");
    Keys();
    TriangleInvolves();
    StartSteps();
    TriangleSteps();
    TriangleExpandB(E);
    ScanThreeEvents(E, ChainS1(), a, 0);
    ScanTwoPeople(E, ChainS1(), a, 0, 0);
    ScanTwoPeople(E, TriangleT5(), a, 0, 2);
    assert Round(E, ChainS1(), a, 0, 0) == TriangleT5();
    assert Round(E, TriangleT5(), a, 0, 1) == TriangleT5();
    assert Round(E, TriangleT5(), a, 0, 2) == TriangleT6();
  }

  /**
   * Depth-first order decides levels: C shares e3 with A, yet B reaches C
   * first, so C gets level 2 and the A-C link, created while C was being
   * expanded, is indirect.
   */
  lemma {:induction false} DirectPartnerAtLevelTwo()
    ensures
      var a, b, c := Person("A"), Person("B"), Person("C");
      Build(TriangleEvents(), a)
      == GraphData(
        [NewNode(a, 0), NewNode(b, 1), NewNode(c, 2)],
        [Link("A", "B", 2, ["e1"], false), Link("B", "C", 2, ["e2"], true), Link("A", "C", 2, ["e3"], true)])
  {
    TriangleTraverse(TriangleEvents());
    TriangleFlatten();
  }

  lemma {:induction false} TriangleFlatten()
    ensures Flatten(TriangleT6())
      == GraphData(
        [NewNode(Person("A"), 0), NewNode(Person("B"), 1), NewNode(Person("C"), 2)],
        [Link("A", "B", 2, ["e1"], false), Link("B", "C", 2, ["e2"], true), Link("A", "C", 2, ["e3"], true)])
  {
  }
}
