/**
 The candidate lists built from the IPC replies, and the focused-workspace
 key used for the directory lookup.
 */
module Listings {
  import opened SwayTree
  import TreeIndex
  import Selection

  /**
   The prompt line for an output: "{name}: {make} {model} {serial}". Its id
   part is the output's name when the name has no ':'.
   */
  function OutputLabel(o: OutputInfo): (line: string)
    ensures ':' !in o.name ==> Selection.SelectionId(line) == o.name
  {
    var tail := " " + o.make + " " + o.model + " " + o.serial;
    assert o.name + ": " + o.make + " " + o.model + " " + o.serial == o.name + ":" + tail;
    if ':' in o.name then o.name + ":" + tail
    else
      Selection.SelectionIdOfPrefix(o.name, tail);
      o.name + ":" + tail
  }

  /** `get_outputs`: the active outputs, in reply order, one line each. */
  function GetOutputs(outputs: seq<OutputInfo>): (r: seq<string>)
    ensures |r| <= |outputs|
    ensures forall l :: l in r <==> exists o :: o in outputs && o.active && l == OutputLabel(o)
  {
    if outputs == [] then []
    else
      var rest := GetOutputs(outputs[1..]);
      assert forall o :: o in outputs[1..] ==> o in outputs;
      assert forall o :: o in outputs ==> o == outputs[0] || o in outputs[1..];
      (if outputs[0].active then [OutputLabel(outputs[0])] else []) + rest
  }

  /** Order is kept: the lines for `a + b` are those for `a`, then those for `b`. */
  lemma {:induction false} GetOutputsAppend(a: seq<OutputInfo>, b: seq<OutputInfo>)
    ensures GetOutputs(a + b) == GetOutputs(a) + GetOutputs(b)
    decreases a
  {
    if a == [] {
      assert a + b == b;
    } else {
      assert (a + b)[0] == a[0];
      assert (a + b)[1..] == a[1..] + b;
      GetOutputsAppend(a[1..], b);
    }
  }

  /** When every output is active, line `i` belongs to output `i`. */
  lemma {:induction false} GetOutputsAllActive(outputs: seq<OutputInfo>)
    requires forall i :: 0 <= i < |outputs| ==> outputs[i].active
    ensures |GetOutputs(outputs)| == |outputs|
    ensures forall i :: 0 <= i < |outputs| ==> GetOutputs(outputs)[i] == OutputLabel(outputs[i])
    decreases outputs
  {
    if outputs != [] {
      GetOutputsAllActive(outputs[1..]);
    }
  }

  /** `get_workspaces`: the workspace names, in reply order. */
  function GetWorkspaces(workspaces: seq<WorkspaceInfo>): (r: seq<string>)
    ensures |r| == |workspaces|
    ensures forall i :: 0 <= i < |r| ==> r[i] == workspaces[i].name
  {
    seq(|workspaces|, i requires 0 <= i < |workspaces| => workspaces[i].name)
  }

  /** `get_containers`: one line per named container among the tiled descendants. */
  function GetContainers(tree: Node): (lines: seq<string>)
    ensures |lines| == |TreeIndex.ListedNodes(TreeIndex.Preorder(tree), Con)|
  {
    TreeIndex.OneLinePerListedDescendant(tree, Con);
    TreeIndex.GetAllByType(tree, Con)
  }

  /** `get_active_workspace`: the names of the focused workspaces, concatenated. */
  function GetActiveWorkspace(workspaces: seq<WorkspaceInfo>): (key: string)
    ensures (forall i :: 0 <= i < |workspaces| ==> !workspaces[i].focused) ==> key == ""
  {
    if workspaces == [] then ""
    else (if workspaces[0].focused then workspaces[0].name else "") + GetActiveWorkspace(workspaces[1..])
  }

  /** The key is built piecewise: the focused names of `a`, then those of `b`. */
  lemma {:induction false} GetActiveWorkspaceAppend(a: seq<WorkspaceInfo>, b: seq<WorkspaceInfo>)
    ensures GetActiveWorkspace(a + b) == GetActiveWorkspace(a) + GetActiveWorkspace(b)
    decreases a
  {
    if a == [] {
      assert a + b == b;
    } else {
      assert (a + b)[0] == a[0];
      assert (a + b)[1..] == a[1..] + b;
      GetActiveWorkspaceAppend(a[1..], b);
    }
  }

  /** With no focused workspace the key is empty. */
  lemma {:induction false} NoFocusedWorkspace(workspaces: seq<WorkspaceInfo>)
    requires forall i :: 0 <= i < |workspaces| ==> !workspaces[i].focused
    ensures GetActiveWorkspace(workspaces) == ""
    decreases workspaces
  {
    if workspaces != [] {
      NoFocusedWorkspace(workspaces[1..]);
    }
  }

  /** With exactly one focused workspace, at index `k`, the key is its name. */
  lemma {:induction false} OneFocusedWorkspace(workspaces: seq<WorkspaceInfo>, k: nat)
    requires k < |workspaces|
    requires forall i :: 0 <= i < |workspaces| ==> (workspaces[i].focused <==> i == k)
    ensures GetActiveWorkspace(workspaces) == workspaces[k].name
  {
    var before, after := workspaces[..k], workspaces[k + 1..];
    assert workspaces == before + [workspaces[k]] + after;
    GetActiveWorkspaceAppend(before + [workspaces[k]], after);
    GetActiveWorkspaceAppend(before, [workspaces[k]]);
    NoFocusedWorkspace(before);
    NoFocusedWorkspace(after);
    assert [workspaces[k]][1..] == [];
  }
}
