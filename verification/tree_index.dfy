/**
 Flattening of the layout tree into the prompt lines of one node type
 (`get_all_by_type`): a pre-order walk over the tiled children only, which
 emits "{id}: {name}" for every named node of the requested type and
 descends into every node whether it matched or not.
 */
module TreeIndex {
  import opened Wrappers
  import opened SwayTree
  import Decimal
  import Selection

  /** The prompt line for a node with the given id and name; its id part is the decimal id. */
  function Label(id: int, name: string): (line: string)
    ensures Selection.SelectionId(line) == Decimal.IntToString(id)
  {
    var digits := Decimal.IntToString(id);
    Decimal.IntToStringSeparatorFree(id);
    assert digits + ": " + name == digits + ":" + (" " + name);
    Selection.SelectionIdOfPrefix(digits, " " + name);
    digits + ": " + name
  }

  /** A node is listed when it has a name and the requested type. */
  predicate Listed(c: Node, t: NodeType) {
    c.name.Some? && c.nodetype == t
  }

  /** What a visited node contributes itself, before its descendants. */
  function Own(c: Node, t: NodeType): seq<string> {
    if Listed(c, t) then [Label(c.id, c.name.value)] else []
  }

  /** The prompt lines for the strict descendants of `n` reached through `nodes`. */
  function GetAllByType(n: Node, t: NodeType): seq<string>
    decreases n, 1
  {
    AllByTypeList(n.nodes, t)
  }

  /** The loop over the children: each child's own line, then its subtree's lines. */
  function AllByTypeList(ns: seq<Node>, t: NodeType): seq<string>
    decreases ns, 0
  {
    if ns == [] then []
    else Own(ns[0], t) + GetAllByType(ns[0], t) + AllByTypeList(ns[1..], t)
  }

  // ---------------------------------------------------------------------
  // Reference definition: the pre-order sequence of tiled descendants,
  // filtered by `Listed` and rendered by `Label`.
  // ---------------------------------------------------------------------

  /** Strict descendants of `n` through `nodes`, parent before children, siblings in order. */
  function Preorder(n: Node): seq<Node>
    decreases n, 1
  {
    PreorderList(n.nodes)
  }

  function PreorderList(ns: seq<Node>): seq<Node>
    decreases ns, 0
  {
    if ns == [] then [] else [ns[0]] + Preorder(ns[0]) + PreorderList(ns[1..])
  }

  /** The nodes of `ns` that are listed for `t`, in their order. */
  function ListedNodes(ns: seq<Node>, t: NodeType): (r: seq<Node>)
    ensures |r| <= |ns|
    ensures forall i :: 0 <= i < |r| ==> Listed(r[i], t)
  {
    if ns == [] then []
    else (if Listed(ns[0], t) then [ns[0]] else []) + ListedNodes(ns[1..], t)
  }

  /** Every node `ListedNodes` keeps comes from the sequence it filters. */
  lemma {:induction false} ListedNodesInSource(ns: seq<Node>, t: NodeType)
    ensures forall c :: c in ListedNodes(ns, t) ==> c in ns
    decreases ns
  {
    if ns != [] {
      ListedNodesInSource(ns[1..], t);
      assert forall c :: c in ns[1..] ==> c in ns;
    }
  }

  /** The prompt line of every node of a sequence, in order. */
  function Labels(ns: seq<Node>): (r: seq<string>)
    requires forall i :: 0 <= i < |ns| ==> ns[i].name.Some?
  {
    seq(|ns|, i requires 0 <= i < |ns| => Label(ns[i].id, ns[i].name.value))
  }

  lemma {:induction false} ListedNodesAppend(a: seq<Node>, b: seq<Node>, t: NodeType)
    ensures ListedNodes(a + b, t) == ListedNodes(a, t) + ListedNodes(b, t)
  {
    if a != [] {
      assert (a + b)[0] == a[0];
      assert (a + b)[1..] == a[1..] + b;
      ListedNodesAppend(a[1..], b, t);
      var head := if Listed(a[0], t) then [a[0]] else [];
      calc {
        ListedNodes(a + b, t);
        head + ListedNodes(a[1..] + b, t);
        head + (ListedNodes(a[1..], t) + ListedNodes(b, t));
        (head + ListedNodes(a[1..], t)) + ListedNodes(b, t);
      }
    } else {
      assert a + b == b;
    }
  }

  lemma LabelsAppend(a: seq<Node>, b: seq<Node>)
    requires forall i :: 0 <= i < |a| ==> a[i].name.Some?
    requires forall i :: 0 <= i < |b| ==> b[i].name.Some?
    ensures Labels(a + b) == Labels(a) + Labels(b)
  {
  }

  /** The flattening is the labelled, filtered pre-order: one line per listed descendant, in pre-order. */
  lemma {:induction false} GetAllByTypeIsListedPreorder(n: Node, t: NodeType)
    ensures GetAllByType(n, t) == Labels(ListedNodes(Preorder(n), t))
    decreases n, 1
  {
    AllByTypeListIsListedPreorder(n.nodes, t);
  }

  lemma {:induction false} AllByTypeListIsListedPreorder(ns: seq<Node>, t: NodeType)
    ensures AllByTypeList(ns, t) == Labels(ListedNodes(PreorderList(ns), t))
    decreases ns, 0
  {
    if ns != [] {
      var c := ns[0];
      GetAllByTypeIsListedPreorder(c, t);
      AllByTypeListIsListedPreorder(ns[1..], t);
      ListedNodesAppend([c], Preorder(c), t);
      ListedNodesAppend([c] + Preorder(c), PreorderList(ns[1..]), t);
      var own := ListedNodes([c], t);
      var mine := ListedNodes(Preorder(c), t);
      var rest := ListedNodes(PreorderList(ns[1..]), t);
      assert [c][1..] == [];
      assert Labels(own) == Own(c, t);
      LabelsAppend(own, mine);
      LabelsAppend(own + mine, rest);
    }
  }

  /** The root's own id, name, type and marks never contribute a line. */
  lemma RootFieldsIgnored(n: Node, id: Int64, name: Option<string>, ty: NodeType,
                          marks: Option<seq<string>>, t: NodeType)
    ensures GetAllByType(n.(id := id, name := name, nodetype := ty, marks := marks), t) == GetAllByType(n, t)
  {
  }

  /** Exactly one line per listed tiled descendant, each "{id}: {name}", in pre-order. */
  lemma OneLinePerListedDescendant(n: Node, t: NodeType)
    ensures var listed := ListedNodes(Preorder(n), t);
      && |GetAllByType(n, t)| == |listed|
      && forall i :: 0 <= i < |listed| ==>
           GetAllByType(n, t)[i] == Label(listed[i].id, listed[i].name.value)
  {
    GetAllByTypeIsListedPreorder(n, t);
  }

  /** Siblings keep their order: the lines of `a + b` are those of `a`, then those of `b`. */
  lemma {:induction false} AllByTypeListAppend(a: seq<Node>, b: seq<Node>, t: NodeType)
    ensures AllByTypeList(a + b, t) == AllByTypeList(a, t) + AllByTypeList(b, t)
    decreases a
  {
    if a == [] {
      assert a + b == b;
    } else {
      assert (a + b)[1..] == a[1..] + b;
      AllByTypeListAppend(a[1..], b, t);
    }
  }

  /**
   Pre-order at one child `c`: everything from the siblings before `c`, then
   `c`'s own line, then the lines of `c`'s subtree, then the later siblings.
   */
  lemma {:induction false} SingleChild(c: Node, t: NodeType)
    ensures AllByTypeList([c], t) == Own(c, t) + GetAllByType(c, t)
  {
    assert [c][1..] == [];
  }

  lemma {:induction false} ChildBlock(n: Node, a: seq<Node>, c: Node, b: seq<Node>, t: NodeType)
    requires n.nodes == a + [c] + b
    ensures GetAllByType(n, t) == AllByTypeList(a, t) + Own(c, t) + GetAllByType(c, t) + AllByTypeList(b, t)
  {
    calc {
      GetAllByType(n, t);
      AllByTypeList(a + [c] + b, t);
      { AllByTypeListAppend(a + [c], b, t); }
      AllByTypeList(a + [c], t) + AllByTypeList(b, t);
      { AllByTypeListAppend(a, [c], t); }
      AllByTypeList(a, t) + AllByTypeList([c], t) + AllByTypeList(b, t);
      { SingleChild(c, t); }
      AllByTypeList(a, t) + (Own(c, t) + GetAllByType(c, t)) + AllByTypeList(b, t);
    }
  }

  // ---------------------------------------------------------------------
  // Floating children never contribute.
  // ---------------------------------------------------------------------

  /** The same tree with every floating child removed, at every depth. */
  function StripFloating(n: Node): (r: Node)
    ensures r.id == n.id && r.name == n.name && r.nodetype == n.nodetype
    ensures r.floatingNodes == [] && |r.nodes| == |n.nodes|
    decreases n, 1
  {
    n.(nodes := StripFloatingList(n.nodes), floatingNodes := [])
  }

  function StripFloatingList(ns: seq<Node>): (r: seq<Node>)
    ensures |r| == |ns|
    decreases ns, 0
  {
    if ns == [] then [] else [StripFloating(ns[0])] + StripFloatingList(ns[1..])
  }

  /** Nodes reachable only through `floatingNodes` contribute no line. */
  lemma {:induction false} FloatingNodesIgnored(n: Node, t: NodeType)
    ensures GetAllByType(StripFloating(n), t) == GetAllByType(n, t)
    decreases n, 1
  {
    FloatingNodesIgnoredList(n.nodes, t);
  }

  lemma {:induction false} FloatingNodesIgnoredList(ns: seq<Node>, t: NodeType)
    ensures AllByTypeList(StripFloatingList(ns), t) == AllByTypeList(ns, t)
    decreases ns, 0
  {
    if ns != [] {
      var s := StripFloatingList(ns);
      assert s[0] == StripFloating(ns[0]);
      assert s[1..] == StripFloatingList(ns[1..]);
      FloatingNodesIgnored(ns[0], t);
      FloatingNodesIgnoredList(ns[1..], t);
    }
  }
}
