/**
 * Keys of the relationship graph's links (src/components/RelacoesGraph.tsx):
 * the unordered pair of person ids, stored in the order JavaScript's default
 * `sort()` puts them. The source joins the pair into one string with '-'
 * and splits it back when it flattens the links; that string form is
 * modelled here too, next to the pair the rest of the model uses.
 */
module LinkKeys {
  import opened Wrappers

  /**
   * `a < b` on JavaScript strings: the first differing character decides,
   * and a proper prefix comes first.
   */
  predicate StrLess(a: string, b: string)
    decreases |a|
  {
    if a == [] then b != []
    else if b == [] then false
    else if a[0] != b[0] then a[0] < b[0]
    else StrLess(a[1..], b[1..])
  }

  lemma {:induction false} StrLessIrreflexive(a: string)
    ensures !StrLess(a, a)
    decreases |a|
  {
    if a != [] {
      StrLessIrreflexive(a[1..]);
    }
  }

  lemma {:induction false} StrLessAsymmetric(a: string, b: string)
    ensures StrLess(a, b) ==> !StrLess(b, a)
    decreases |a|
  {
    if a != [] && b != [] && a[0] == b[0] {
      StrLessAsymmetric(a[1..], b[1..]);
    }
  }

  lemma {:induction false} StrLessTotal(a: string, b: string)
    requires a != b
    ensures StrLess(a, b) || StrLess(b, a)
    decreases |a|
  {
    if a != [] && b != [] && a[0] == b[0] {
      assert a == [a[0]] + a[1..] && b == [b[0]] + b[1..];
      StrLessTotal(a[1..], b[1..]);
    }
  }

  /** A link key: the two ids of an unordered pair, smaller first. */
  datatype LinkKey = LinkKey(lo: string, hi: string)

  /** `[a, b].sort()`, kept as a pair. */
  function KeyOf(a: string, b: string): (k: LinkKey)
    requires a != b
    ensures StrLess(k.lo, k.hi)
    ensures (k.lo == a && k.hi == b) || (k.lo == b && k.hi == a)
  {
    StrLessTotal(a, b);
    if StrLess(a, b) then LinkKey(a, b) else LinkKey(b, a)
  }

  /** Both orders of a pair give the same key, so they aggregate into one link. */
  lemma KeyOfSymmetric(a: string, b: string)
    requires a != b
    ensures KeyOf(a, b) == KeyOf(b, a)
  {
    StrLessAsymmetric(a, b);
    StrLessTotal(a, b);
  }

  /** Two pairs share a key exactly when they are the same unordered pair. */
  lemma KeyOfInjective(a: string, b: string, c: string, d: string)
    requires a != b && c != d
    ensures KeyOf(a, b) == KeyOf(c, d) <==> (a == c && b == d) || (a == d && b == c)
  {
    KeyOfSymmetric(a, b);
    KeyOfSymmetric(c, d);
  }

  /** `[a, b].sort().join('-')`: the string key the source actually uses. */
  function JoinLinkId(a: string, b: string): string
    requires a != b
  {
    var k := KeyOf(a, b);
    k.lo + "-" + k.hi
  }

  /** The text before the first '-' (all of it when there is none). */
  function BeforeDash(s: string): (r: string)
    ensures |r| <= |s| && r == s[..|r|]
    ensures '-' !in r
  {
    if s == [] || s[0] == '-' then [] else [s[0]] + BeforeDash(s[1..])
  }

  /**
   * `const [source, target] = id.split('-')`: the first two '-'-separated
   * parts; `target` is undefined when there is no '-'.
   */
  function SplitLinkId(id: string): (r: (string, Option<string>))
    ensures '-' !in r.0 && (r.1.Some? ==> '-' !in r.1.value)
    ensures r.1.None? <==> '-' !in id
    ensures r.1.None? ==> r.0 == id
  {
    var source := BeforeDash(id);
    if |source| == |id| then (source, None)
    else
      assert id[|source|] == '-' by { BeforeDashStopsAtDash(id); }
      (source, Some(BeforeDash(id[|source| + 1..])))
  }

  /** When `BeforeDash` stops short, it stops at a '-'. */
  lemma {:induction false} BeforeDashStopsAtDash(s: string)
    ensures |BeforeDash(s)| < |s| ==> s[|BeforeDash(s)|] == '-'
  {
    if s != [] && s[0] != '-' {
      BeforeDashStopsAtDash(s[1..]);
    }
  }

  lemma {:induction false} BeforeDashOf(a: string, rest: string)
    requires '-' !in a
    ensures BeforeDash(a + rest) == (if rest != [] && rest[0] == '-' then a else a + BeforeDash(rest))
  {
    if a == [] {
      assert a + rest == rest;
      if rest != [] && rest[0] != '-' {
        assert BeforeDash(rest) == [rest[0]] + BeforeDash(rest[1..]);
      }
    } else {
      assert (a + rest)[1..] == a[1..] + rest;
      BeforeDashOf(a[1..], rest);
    }
  }

  /** Splitting the joined key gives back the sorted pair when no id contains '-'. */
  lemma SplitJoinRoundTrip(a: string, b: string)
    requires a != b && '-' !in a && '-' !in b
    ensures SplitLinkId(JoinLinkId(a, b)) == (KeyOf(a, b).lo, Some(KeyOf(a, b).hi))
  {
    var k := KeyOf(a, b);
    var id := k.lo + "-" + k.hi;
    assert id == k.lo + ("-" + k.hi);
    BeforeDashOf(k.lo, "-" + k.hi);
    assert BeforeDash(id) == k.lo;
    assert id[|k.lo| + 1..] == k.hi;
    BeforeDashOf(k.hi, []);
    assert k.hi + [] == k.hi;
  }

  /**
   * With '-' inside an id, the string key goes wrong both ways: two
   * different pairs share one key (so their links merge), and splitting
   * the key does not give back the ids.
   */
  lemma DashedIdsBreakStringKey()
    ensures JoinLinkId("a-b", "c") == JoinLinkId("a", "b-c")
    ensures SplitLinkId(JoinLinkId("a-b", "c")) == ("a", Some("b"))
  {
    assert StrLess("a-b", "c");
    assert StrLess("a", "b-c");
    assert JoinLinkId("a-b", "c") == "a-b-c";
    assert BeforeDash("a-b-c") == "a";
    assert "a-b-c"[2..] == "b-c";
    assert BeforeDash("b-c") == "b";
  }

  /**
   * The pair key has neither defect: each link's key yields its two ids,
   * whatever characters they contain, and different pairs have different keys.
   */
  lemma PairKeyRecoversIds(a: string, b: string)
    requires a != b
    ensures {KeyOf(a, b).lo, KeyOf(a, b).hi} == {a, b}
    ensures forall c, d :: c != d && KeyOf(c, d) == KeyOf(a, b) ==> {c, d} == {a, b}
  {
  }
}
