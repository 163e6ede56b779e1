/**
 The five prompt-driven subcommands (`focus_container_by_id`,
 `steal_container_by_id`, `focus_workspace_by_name`,
 `move_to_workspace_by_name`, `move_workspace_to_output`). Each one offers a
 candidate list to the prompt and sends one command built from what the
 prompt printed. The IPC replies and the prompt's output are inputs; the
 result records what is offered and what is sent.
 */
module Commands {
  import opened Wrappers
  import opened SwayTree
  import Decimal
  import TreeIndex
  import Listings
  import Selection

  /** One round: the lines offered to the prompt and the command sent afterwards. */
  datatype Exchange = Exchange(offered: seq<string>, command: string) {
    /** The text written to the prompt's input. */
    function PromptInput(): string {
      Selection.JoinLines(offered)
    }
  }

  // The command texts sent over IPC, one per subcommand.

  function FocusCommand(id: string): string {
    "[con_id=" + id + "] focus"
  }

  function StealCommand(id: string): string {
    "[con_id=" + id + "] move to workspace current"
  }

  function FocusWorkspaceCommand(name: string): string {
    "workspace " + name
  }

  function MoveToWorkspaceCommand(name: string): string {
    "move window to workspace " + name
  }

  function MoveToOutputCommand(name: string): string {
    "move workspace to output " + name
  }

  function FocusContainerById(tree: Node, chosen: string): Exchange {
    Exchange(Listings.GetContainers(tree), FocusCommand(Selection.SelectionId(chosen)))
  }

  function StealContainerById(tree: Node, chosen: string): Exchange {
    Exchange(Listings.GetContainers(tree), StealCommand(Selection.SelectionId(chosen)))
  }

  function FocusWorkspaceByName(workspaces: seq<WorkspaceInfo>, chosen: string): Exchange {
    Exchange(Listings.GetWorkspaces(workspaces), FocusWorkspaceCommand(chosen))
  }

  function MoveToWorkspaceByName(workspaces: seq<WorkspaceInfo>, chosen: string): Exchange {
    Exchange(Listings.GetWorkspaces(workspaces), MoveToWorkspaceCommand(chosen))
  }

  function MoveWorkspaceToOutput(outputs: seq<OutputInfo>, chosen: string): Exchange {
    Exchange(Listings.GetOutputs(outputs), MoveToOutputCommand(Selection.SelectionId(chosen)))
  }

  /** The listed container behind line `k` of the container list. */
  function ContainerAt(tree: Node, k: nat): (c: Node)
    requires k < |Listings.GetContainers(tree)|
    ensures c in TreeIndex.Preorder(tree) && TreeIndex.Listed(c, Con)
    ensures Listings.GetContainers(tree)[k] == TreeIndex.Label(c.id, c.name.value)
  {
    TreeIndex.OneLinePerListedDescendant(tree, Con);
    var listed := TreeIndex.ListedNodes(TreeIndex.Preorder(tree), Con);
    TreeIndex.ListedNodesInSource(TreeIndex.Preorder(tree), Con);
    listed[k]
  }

  /** Any text that starts with a container's line names that container's id. */
  lemma LabelIdRoundTrip(id: int, name: string, rest: string)
    ensures Selection.SelectionId(TreeIndex.Label(id, name) + rest) == Decimal.IntToString(id)
  {
    var digits := Decimal.IntToString(id);
    Decimal.IntToStringSeparatorFree(id);
    assert TreeIndex.Label(id, name) + rest == digits + ":" + (" " + name + rest);
    Selection.SelectionIdOfPrefix(digits, " " + name + rest);
  }

  /**
   Choosing line `k` of the container list (followed by anything) focuses
   exactly the container that line was made from.
   */
  lemma {:induction false} FocusTargetsChosenContainer(tree: Node, k: nat, rest: string)
    requires k < |Listings.GetContainers(tree)|
    ensures var chosen := Listings.GetContainers(tree)[k] + rest;
      FocusContainerById(tree, chosen).command
        == "[con_id=" + Decimal.IntToString(ContainerAt(tree, k).id) + "] focus"
  {
    var c := ContainerAt(tree, k);
    LabelIdRoundTrip(c.id, c.name.value, rest);
  }

  /** Choosing line `k` of the container list moves that container to the current workspace. */
  lemma {:induction false} StealTargetsChosenContainer(tree: Node, k: nat, rest: string)
    requires k < |Listings.GetContainers(tree)|
    ensures var chosen := Listings.GetContainers(tree)[k] + rest;
      StealContainerById(tree, chosen).command
        == "[con_id=" + Decimal.IntToString(ContainerAt(tree, k).id) + "] move to workspace current"
  {
    var c := ContainerAt(tree, k);
    LabelIdRoundTrip(c.id, c.name.value, rest);
  }

  /**
   When no container name holds a newline and there is at least one
   container, the prompt shows exactly the container lines, in order.
   */
  lemma {:induction false} PromptShowsContainerLines(tree: Node, chosen: string)
    requires Listings.GetContainers(tree) != []
    requires forall c :: c in TreeIndex.Preorder(tree) && TreeIndex.Listed(c, Con) ==> '\n' !in c.name.value
    ensures Selection.SplitLines(FocusContainerById(tree, chosen).PromptInput()) == Listings.GetContainers(tree)
  {
    var offered := Listings.GetContainers(tree);
    forall k | 0 <= k < |offered|
      ensures '\n' !in offered[k]
    {
      var c := ContainerAt(tree, k);
      Decimal.IntToStringSeparatorFree(c.id);
      assert offered[k] == Decimal.IntToString(c.id) + ": " + c.name.value;
    }
    Selection.SplitJoinRoundTrip(offered);
  }

  /** Two different lines of the container list name two different ids. */
  lemma {:induction false} ContainerLinesNameDistinctNodes(tree: Node, j: nat, k: nat)
    requires j < |Listings.GetContainers(tree)| && k < |Listings.GetContainers(tree)|
    requires ContainerAt(tree, j).id != ContainerAt(tree, k).id
    ensures Selection.SelectionId(Listings.GetContainers(tree)[j])
         != Selection.SelectionId(Listings.GetContainers(tree)[k])
  {
    var cj, ck := ContainerAt(tree, j), ContainerAt(tree, k);
    LabelIdRoundTrip(cj.id, cj.name.value, "");
    LabelIdRoundTrip(ck.id, ck.name.value, "");
    assert Listings.GetContainers(tree)[j] + "" == Listings.GetContainers(tree)[j];
    assert Listings.GetContainers(tree)[k] + "" == Listings.GetContainers(tree)[k];
    if Decimal.IntToString(cj.id) == Decimal.IntToString(ck.id) {
      Decimal.IntToStringInjective(cj.id, ck.id);
    }
  }

  /** Choosing an active output's line moves the workspace to that output, when its name has no ':'. */
  lemma {:induction false} OutputTargetsChosenOutput(outputs: seq<OutputInfo>, o: OutputInfo, rest: string)
    requires o in outputs && o.active && ':' !in o.name
    ensures Listings.OutputLabel(o) in MoveWorkspaceToOutput(outputs, "").offered
    ensures MoveWorkspaceToOutput(outputs, Listings.OutputLabel(o) + rest).command
         == "move workspace to output " + o.name
  {
    var tail := " " + o.make + " " + o.model + " " + o.serial + rest;
    assert Listings.OutputLabel(o) + rest == o.name + ":" + tail;
    Selection.SelectionIdOfPrefix(o.name, tail);
  }

  /** Choosing workspace line `k` focuses, or moves the window to, workspace `k`. */
  lemma {:induction false} WorkspaceTargetsChosenWorkspace(workspaces: seq<WorkspaceInfo>, k: nat)
    requires k < |workspaces|
    ensures var chosen := Listings.GetWorkspaces(workspaces)[k];
      && FocusWorkspaceByName(workspaces, chosen).command == "workspace " + workspaces[k].name
      && MoveToWorkspaceByName(workspaces, chosen).command == "move window to workspace " + workspaces[k].name
  {
  }

  /** A cancelled prompt prints nothing; every subcommand still sends its command, with an empty target. */
  lemma {:induction false} CancelledPromptStillSends(tree: Node, workspaces: seq<WorkspaceInfo>, outputs: seq<OutputInfo>)
    ensures FocusContainerById(tree, "").command == "[con_id=" + "] focus"
    ensures StealContainerById(tree, "").command == "[con_id=" + "] move to workspace current"
    ensures FocusWorkspaceByName(workspaces, "").command == "workspace "
    ensures MoveToWorkspaceByName(workspaces, "").command == "move window to workspace "
    ensures MoveWorkspaceToOutput(outputs, "").command == "move workspace to output "
  {
    assert Selection.SelectionId("") == "";
  }

  /** Windows "Firefox" (id 3) and "Terminal" (id 7) in one workspace under the root. */
  function Firefox(): Node {
    Node(3, Some("Firefox"), Con, None, [], [])
  }

  function Terminal(): Node {
    Node(7, Some("Terminal"), Con, None, [], [])
  }

  function TwoWindowWorkspace(): Node {
    Node(2, Some("1"), Workspace, None, [Firefox(), Terminal()], [])
  }

  function TwoWindowTree(): Node {
    Node(1, Some("root"), Root, None, [TwoWindowWorkspace()], [])
  }

  /** A window without children lists nothing below itself. */
  lemma {:induction false} LeafListsNothing(c: Node, t: NodeType)
    requires c.nodes == []
    ensures TreeIndex.GetAllByType(c, t) == []
  {
  }

  lemma {:induction false} FirefoxLine()
    ensures TreeIndex.AllByTypeList([Firefox()], Con) == ["3: Firefox"]
  {
    assert Decimal.IntToString(3) == "3";
    assert TreeIndex.Label(3, "Firefox") == "3: Firefox";
    assert TreeIndex.Listed(Firefox(), Con);
    assert TreeIndex.Own(Firefox(), Con) == ["3: Firefox"];
    LeafListsNothing(Firefox(), Con);
    TreeIndex.SingleChild(Firefox(), Con);
  }

  lemma {:induction false} TerminalLine()
    ensures TreeIndex.AllByTypeList([Terminal()], Con) == ["7: Terminal"]
  {
    assert Decimal.IntToString(7) == "7";
    assert TreeIndex.Label(7, "Terminal") == "7: Terminal";
    assert TreeIndex.Listed(Terminal(), Con);
    assert TreeIndex.Own(Terminal(), Con) == ["7: Terminal"];
    LeafListsNothing(Terminal(), Con);
    TreeIndex.SingleChild(Terminal(), Con);
  }

  lemma {:induction false} WorkspaceLines()
    ensures TreeIndex.GetAllByType(TwoWindowWorkspace(), Con) == ["3: Firefox", "7: Terminal"]
  {
    FirefoxLine();
    TerminalLine();
    assert TwoWindowWorkspace().nodes == [Firefox()] + [Terminal()];
    TreeIndex.AllByTypeListAppend([Firefox()], [Terminal()], Con);
  }

  lemma {:induction false} TwoWindowLines()
    ensures Listings.GetContainers(TwoWindowTree()) == ["3: Firefox", "7: Terminal"]
  {
    WorkspaceLines();
    assert TreeIndex.Own(TwoWindowWorkspace(), Con) == [];
    TreeIndex.SingleChild(TwoWindowWorkspace(), Con);
  }

  /** Both windows are offered in order, and choosing the first focuses it by id. */
  lemma {:induction false} TwoWindowScenario()
    ensures Listings.GetContainers(TwoWindowTree()) == ["3: Firefox", "7: Terminal"]
    ensures FocusContainerById(TwoWindowTree(), "3: Firefox").command == "[con_id=3] focus"
  {
    TwoWindowLines();
    FirefoxChosen();
    FocusFirefox();
  }

  lemma {:induction false} FirefoxChosen()
    ensures Selection.SelectionId("3: Firefox") == "3"
  {
    assert Decimal.IntToString(3) == "3";
    assert TreeIndex.Label(3, "Firefox") == "3: Firefox";
  }

  lemma {:induction false} FocusFirefox()
    ensures FocusCommand("3") == "[con_id=3] focus"
  {
  }
}
