/**
 The replies of the window manager's IPC channel that the tool reads: the
 layout tree (`get_tree`), the workspace list (`get_workspaces`) and the
 output list (`get_outputs`). Only the fields the tool looks at are kept.
 */
module SwayTree {
  import opened Wrappers

  /** Rust's `i64`, the type of a node id. */
  type Int64 = i: int | -0x8000_0000_0000_0000 <= i < 0x8000_0000_0000_0000

  /** The kinds of node the IPC library distinguishes. */
  datatype NodeType = Root | Output | Con | FloatingCon | Workspace | DockArea | Unknown

  /**
   One node of the layout tree. It owns its tiled children (`nodes`) and its
   floating children (`floatingNodes`); a snapshot is a finite tree.
   */
  datatype Node = Node(
    id: Int64,
    name: Option<string>,
    nodetype: NodeType,
    marks: Option<seq<string>>,
    nodes: seq<Node>,
    floatingNodes: seq<Node>)

  /** One entry of the workspace list. */
  datatype WorkspaceInfo = WorkspaceInfo(name: string, focused: bool)

  /** One entry of the output list. */
  datatype OutputInfo = OutputInfo(name: string, make: string, model: string, serial: string, active: bool)
}
