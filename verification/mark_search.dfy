/**
 The search for a mark below a node (`search_tree_for_mark`): a depth-first
 walk over the tiled children followed by the floating children, which stops
 at the first node carrying the mark. The node the search starts from is
 never checked itself, only its descendants.
 */
module MarkSearch {
  import opened Wrappers
  import opened SwayTree

  /** `c` has a mark list and `m` is one of its marks. */
  predicate Carries(c: Node, m: string) {
    c.marks.Some? && m in c.marks.value
  }

  /** Some strict descendant of `n`, tiled or floating, carries `m`. */
  function SearchTreeForMark(n: Node, m: string): bool
    decreases n, 1
  {
    AnyBelow(n.nodes, m) || AnyBelow(n.floatingNodes, m)
  }

  /** The loop over one child list: the child's marks, then its subtree, then the later children. */
  function AnyBelow(ns: seq<Node>, m: string): bool
    decreases ns, 0
  {
    ns != [] && (Carries(ns[0], m) || SearchTreeForMark(ns[0], m) || AnyBelow(ns[1..], m))
  }

  /** Searching `a + b` is searching `a`, then `b`. */
  lemma {:induction false} AnyBelowAppend(a: seq<Node>, b: seq<Node>, m: string)
    ensures AnyBelow(a + b, m) == (AnyBelow(a, m) || AnyBelow(b, m))
    decreases a
  {
    if a == [] {
      assert a + b == b;
    } else {
      assert (a + b)[0] == a[0];
      assert (a + b)[1..] == a[1..] + b;
      AnyBelowAppend(a[1..], b, m);
    }
  }

  /** The search walks one combined list: the tiled children, then the floating ones. */
  lemma SearchIsOverCombinedChildren(n: Node, m: string)
    ensures SearchTreeForMark(n, m) == AnyBelow(n.nodes + n.floatingNodes, m)
  {
    AnyBelowAppend(n.nodes, n.floatingNodes, m);
  }

  // ---------------------------------------------------------------------
  // Reference definition: the set of all strict descendants.
  // ---------------------------------------------------------------------

  /** Every node reachable from `n` through `nodes` or `floatingNodes`, `n` itself excluded. */
  ghost function Below(n: Node): set<Node>
    decreases n
  {
    (set c, d | c in n.nodes && d in {c} + Below(c) :: d)
    + (set c, d | c in n.floatingNodes && d in {c} + Below(c) :: d)
  }

  ghost predicate MarkBelow(n: Node, m: string) {
    exists d :: d in Below(n) && Carries(d, m)
  }

  /** `c` carries `m` itself or has a descendant that does. */
  ghost predicate MarkAtOrBelow(c: Node, m: string) {
    Carries(c, m) || MarkBelow(c, m)
  }

  lemma {:induction false} BelowMember(n: Node, d: Node)
    ensures d in Below(n) <==>
      exists c :: (c in n.nodes || c in n.floatingNodes) && (d == c || d in Below(c))
  {
    var tiled := set c, d | c in n.nodes && d in {c} + Below(c) :: d;
    var floating := set c, d | c in n.floatingNodes && d in {c} + Below(c) :: d;
    assert Below(n) == tiled + floating;
    if d in tiled {
      var c :| c in n.nodes && d in {c} + Below(c);
    } else if d in floating {
      var c :| c in n.floatingNodes && d in {c} + Below(c);
    }
    if c :| (c in n.nodes || c in n.floatingNodes) && (d == c || d in Below(c)) {
      assert d in {c} + Below(c);
      if c in n.nodes {
        assert d in tiled;
      } else {
        assert d in floating;
      }
    }
  }

  /** The search answers true exactly when some strict descendant carries the mark. */
  lemma {:induction false} SearchFindsMarkBelow(n: Node, m: string)
    ensures SearchTreeForMark(n, m) <==> MarkBelow(n, m)
    decreases n, 1
  {
    AnyBelowFindsMark(n.nodes, m);
    AnyBelowFindsMark(n.floatingNodes, m);
    if MarkBelow(n, m) {
      var d :| d in Below(n) && Carries(d, m);
      BelowMember(n, d);
      var c :| (c in n.nodes || c in n.floatingNodes) && (d == c || d in Below(c));
      assert MarkAtOrBelow(c, m);
    }
    if SearchTreeForMark(n, m) {
      var c :| (c in n.nodes || c in n.floatingNodes) && MarkAtOrBelow(c, m);
      if Carries(c, m) {
        BelowMember(n, c);
      } else {
        var d :| d in Below(c) && Carries(d, m);
        BelowMember(n, d);
      }
    }
  }

  lemma {:induction false} AnyBelowFindsMark(ns: seq<Node>, m: string)
    ensures AnyBelow(ns, m) <==> exists c :: c in ns && MarkAtOrBelow(c, m)
    decreases ns, 0
  {
    if ns != [] {
      SearchFindsMarkBelow(ns[0], m);
      AnyBelowFindsMark(ns[1..], m);
      if c :| c in ns && MarkAtOrBelow(c, m) {
        var i :| 0 <= i < |ns| && ns[i] == c;
        if i > 0 {
          assert ns[1..][i - 1] == c;
        }
      }
      if AnyBelow(ns, m) {
        if MarkAtOrBelow(ns[0], m) {
          assert ns[0] in ns;
        } else {
          var c :| c in ns[1..] && MarkAtOrBelow(c, m);
          assert c in ns;
        }
      }
    }
  }

  /** A node without children never finds a mark, whatever its own marks are. */
  lemma LeafFindsNothing(n: Node, m: string)
    requires n.nodes == [] && n.floatingNodes == []
    ensures !SearchTreeForMark(n, m)
  {
  }

  /** The search ignores the marks of the node it starts from. */
  lemma OwnMarksIgnored(n: Node, marks: Option<seq<string>>, m: string)
    ensures SearchTreeForMark(n.(marks := marks), m) == SearchTreeForMark(n, m)
  {
  }

  // ---------------------------------------------------------------------
  // The search as the source writes it: a loop with early returns.
  // ---------------------------------------------------------------------

  /** The loop over the combined child list, with the inner loop over a child's marks. */
  method SearchLoop(n: Node, m: string) returns (found: bool)
    ensures found <==> MarkBelow(n, m)
    decreases n
  {
    SearchFindsMarkBelow(n, m);
    SearchIsOverCombinedChildren(n, m);
    var combined := n.nodes + n.floatingNodes;
    var result := false;
    var i := 0;
    while i < |combined|
      invariant 0 <= i <= |combined|
      invariant !result
      invariant AnyBelow(combined, m) == AnyBelow(combined[i..], m)
    {
      var c := combined[i];
      assert combined[i..][0] == c && combined[i..][1..] == combined[i + 1..];
      if c.marks.Some? {
        var marks := c.marks.value;
        var j := 0;
        while j < |marks|
          invariant 0 <= j <= |marks|
          invariant m !in marks[..j]
        {
          if m == marks[j] {
            return true;
          }
          assert marks[..j + 1] == marks[..j] + [marks[j]];
          j := j + 1;
        }
        assert marks[..j] == marks;
      }
      if i < |n.nodes| {
        assert c == n.nodes[i];
      } else {
        assert c == n.floatingNodes[i - |n.nodes|];
      }
      result := SearchLoop(c, m);
      SearchFindsMarkBelow(c, m);
      if result {
        return true;
      }
      i := i + 1;
    }
    return result;
  }
}
