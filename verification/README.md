# sway-action, modelled in Dafny

sway-action offers things from the sway window manager through a rofi prompt
and acts on the choice. It asks sway over IPC for the layout tree, the
workspace list or the output list, writes candidate lines to `rofi -dmenu`,
and sends a sway command built from the chosen line. Two more flows exist.
`quick-window` shows or launches a scratchpad terminal, depending on whether a
window marked "quick" exists. `workspace-exec` enters a directory looked up by
the focused workspace's name, then starts a program there.

This project models the logic between the IPC replies and the prompt, all of
it in `src/main.rs`, as pure Dafny functions over immutable values:

| file | module | models |
|---|---|---|
| `wrappers.dfy` | `Wrappers` | `Option` |
| `decimal.dfy` | `Decimal` | `{}` rendering of an `i64` id, with a parser as its partner |
| `sway_tree.dfy` | `SwayTree` | the tree node, workspace and output replies |
| `tree_index.dfy` | `TreeIndex` | `get_all_by_type`, with a filtered pre-order as reference |
| `mark_search.dfy` | `MarkSearch` | `search_tree_for_mark`, with the set of all descendants as reference, plus the loop form |
| `selection.dfy` | `Selection` | the newline join for rofi, and the cut at the first `':'` |
| `listings.dfy` | `Listings` | `get_outputs`, `get_workspaces`, `get_containers`, `get_active_workspace` |
| `commands.dfy` | `Commands` | the five prompt-driven subcommands and their command strings |
| `quick_window.dfy` | `QuickWindow` | the choice made by `quick_window` |
| `workspace_exec.dfy` | `WorkspaceExec` | `change_dir_from_mapping` and `workspace_exec` |

Side effects are turned into inputs and results:
- The IPC replies are parameters. A failed workspace query is `None`.
- The text rofi prints is a parameter, `chosen`.
- A process to start is a `Spawn` value.
- The directory change is a `ChangeDirOutcome`. Whether the OS lets the process enter a directory is the parameter `canEnter`.
- The mapping file is a `Config`: `Unreadable`, or the parsed YAML documents.
- The home directory is a parameter, `home`.

Behaviour of the code worth stating, since a reader might expect otherwise:
- A node is listed when its name is `Some`, even if the name is empty.
- A cancelled prompt gives an empty id, and the command is still sent, for example `[con_id=] focus` (`Commands.CancelledPromptStillSends`).
- The quick window is hard-coded: mark "quick" and a fixed alacritty/tmux command line. There is no alias table.
- When the mark exists, a `swaymsg` process is started. The tool does not send an IPC command itself.
- The lookup key is the concatenation of the names of all focused workspaces. Zero or several focused workspaces are not an error.
- `workspace-exec` first changes the directory and only then checks that a program was given.
- A directory that cannot be entered ends the process with status 1. The directory step is not skipped.
- An unreadable mapping file gives `Ok(false)`: no directory change, and the program is still started.
- A mapping file without any YAML document panics when the first document is indexed (`NoDocument`).

## Model

| member | source | states |
|---|---|---|
| Decimal.IntToString | src/main.rs:168 | an id renders to one or more digits, optionally after a single leading '-': the text `Decimal.ParseInt` reads |
| Decimal.IntToStringCanonical | src/main.rs:168 | the rendering has no leading zero: a '0' stands alone and a '-' is never followed by '0', as Rust's `{}` prints an integer |
| Decimal.IntToStringSeparatorFree | src/main.rs:168 | a rendered id contains neither ':' nor a newline, so it ends before a label's separator |
| Decimal.NatToStringRoundTrip | src/main.rs:168 | reading the decimal digits of n gives back n |
| Decimal.IntToStringRoundTrip | src/main.rs:168 | parsing the rendering of any id gives back that id, negative ids included |
| Decimal.IntToStringInjective | src/main.rs:168 | two different ids never render to the same text |
| TreeIndex.Label | src/main.rs:168 | a container line "{id}: {name}" has the decimal id as its id part, whatever the name |
| TreeIndex.GetAllByType | src/main.rs:163-174 | no contract of its own; specified by `TreeIndex.GetAllByTypeIsListedPreorder`, `TreeIndex.OneLinePerListedDescendant`, `TreeIndex.ChildBlock`, `TreeIndex.RootFieldsIgnored` and `TreeIndex.FloatingNodesIgnored` |
| TreeIndex.GetAllByTypeIsListedPreorder | src/main.rs:163-174 | the flattening equals the labels of the named nodes of the requested type, taken from the pre-order of the tiled descendants |
| TreeIndex.RootFieldsIgnored | src/main.rs:165-171 | the root's own id, name, type and marks never change the result: only its descendants are labelled |
| TreeIndex.OneLinePerListedDescendant | src/main.rs:163-174 | there is exactly one line per named descendant of the type, line i being "{id}: {name}" of the i-th such node in pre-order |
| TreeIndex.AllByTypeListAppend | src/main.rs:165-172 | siblings keep their order: the lines of a + b are those of a, then those of b |
| TreeIndex.ChildBlock | src/main.rs:165-172 | at a child c: the earlier siblings' lines, then c's own line, then c's subtree's lines, then the later siblings'; non-matching nodes are still descended into |
| TreeIndex.FloatingNodesIgnored | src/main.rs:165 | removing every floating child, at any depth, leaves the flattening unchanged |
| MarkSearch.SearchTreeForMark | src/main.rs:203-222 | no contract of its own; specified by `MarkSearch.SearchFindsMarkBelow` (both directions) and `MarkSearch.SearchIsOverCombinedChildren` |
| MarkSearch.SearchIsOverCombinedChildren | src/main.rs:205-207 | the search walks one list: the tiled children followed by the floating children |
| MarkSearch.SearchFindsMarkBelow | src/main.rs:203-222 | the search is true iff some strict descendant, reached through tiled or floating children, carries the mark |
| MarkSearch.LeafFindsNothing | src/main.rs:204-221 | the search from a node without children returns false |
| MarkSearch.OwnMarksIgnored | src/main.rs:207-216 | the search gives the same answer whatever marks the starting node has |
| MarkSearch.SearchLoop | src/main.rs:203-222 | the loop with early returns, including the inner loop over a child's marks, answers true iff some strict descendant carries the mark |
| Selection.FirstField | src/main.rs:179 | the first piece of a split is the longest separator-free prefix: a prefix, free of the separator, and followed by the separator or the end |
| Selection.SelectionId | src/main.rs:176-180 | the id is the longest ':'-free prefix of the chosen text; it always exists and is "" for empty text |
| Selection.SelectionIdOfPrefix | src/main.rs:179 | a text p + ":" + rest with p free of ':' yields exactly p |
| Selection.SelectionIdWithoutColon | src/main.rs:179 | a text without ':' is its own id |
| Selection.JoinLines | src/main.rs:195 | no contract of its own (it is also what `Commands.Exchange.PromptInput` writes to the prompt); `Selection.SplitJoinRoundTrip` shows the join is undone by splitting at newlines for non-empty lists of newline-free lines |
| Selection.SplitJoinRoundTrip | src/main.rs:195 | newline-free lines joined with "\n" split back into exactly those lines, in order |
| Selection.JoinOfEmptyListNotRecovered | src/main.rs:195 | an empty candidate list is joined to empty input, which the inverse of the join cannot tell apart from one empty line |
| Listings.OutputLabel | src/main.rs:149 | an output line's id part is the output's name when the name has no ':' |
| Listings.GetOutputs | src/main.rs:145-151 | a line is produced iff it is "{name}: {make} {model} {serial}" of an active output; never more lines than outputs |
| Listings.GetOutputsAppend | src/main.rs:148-150 | the reply order is kept |
| Listings.GetOutputsAllActive | src/main.rs:148-150 | when every output is active, line i belongs to output i |
| Listings.GetWorkspaces | src/main.rs:153-156 | one line per workspace, its name, in reply order |
| Listings.GetContainers | src/main.rs:158-161 | one line per named container among the tiled descendants; line by line in `Commands.ContainerAt` |
| Listings.GetActiveWorkspace | src/main.rs:232-235 | with no focused workspace the key is ""; the other cases are in `Listings.OneFocusedWorkspace` and `Listings.GetActiveWorkspaceAppend` |
| Listings.GetActiveWorkspaceAppend | src/main.rs:234 | the key is the concatenation of the focused names, piece by piece |
| Listings.NoFocusedWorkspace | src/main.rs:234 | with no focused workspace the key is "" |
| Listings.OneFocusedWorkspace | src/main.rs:232-235 | with exactly one focused workspace the key is its name |
| Commands.FocusContainerById | src/main.rs:109-114 | no contract of its own; specified by `Commands.FocusTargetsChosenContainer`, `Commands.PromptShowsContainerLines` and `Commands.CancelledPromptStillSends` |
| Commands.StealContainerById | src/main.rs:116-121 | no contract of its own; specified by `Commands.StealTargetsChosenContainer` and `Commands.CancelledPromptStillSends` |
| Commands.FocusWorkspaceByName | src/main.rs:123-128 | no contract of its own; specified by `Commands.WorkspaceTargetsChosenWorkspace` and `Commands.CancelledPromptStillSends` |
| Commands.MoveToWorkspaceByName | src/main.rs:130-135 | no contract of its own; specified by `Commands.WorkspaceTargetsChosenWorkspace` and `Commands.CancelledPromptStillSends` |
| Commands.MoveWorkspaceToOutput | src/main.rs:137-142 | no contract of its own; specified by `Commands.OutputTargetsChosenOutput` and `Commands.CancelledPromptStillSends` |
| Commands.FocusCommand | src/main.rs:113 | no contract of its own; its text is pinned by `Commands.FocusTargetsChosenContainer` and `Commands.CancelledPromptStillSends` |
| Commands.StealCommand | src/main.rs:120 | no contract of its own; its text is pinned by `Commands.StealTargetsChosenContainer` and `Commands.CancelledPromptStillSends` |
| Commands.FocusWorkspaceCommand | src/main.rs:127 | no contract of its own; its text is pinned by `Commands.WorkspaceTargetsChosenWorkspace` and `Commands.CancelledPromptStillSends` |
| Commands.MoveToWorkspaceCommand | src/main.rs:134 | no contract of its own; its text is pinned by `Commands.WorkspaceTargetsChosenWorkspace` and `Commands.CancelledPromptStillSends` |
| Commands.MoveToOutputCommand | src/main.rs:140 | no contract of its own; its text is pinned by `Commands.OutputTargetsChosenOutput` and `Commands.CancelledPromptStillSends` |
| Commands.ContainerAt | src/main.rs:158-161 | each line of the container list is the label of a named container among the tiled descendants |
| Commands.LabelIdRoundTrip | src/main.rs:168-179 | any text that starts with "{id}: {name}" gives back exactly the decimal id |
| Commands.FocusTargetsChosenContainer | src/main.rs:109-114 | choosing line k, with any trailing text, sends "[con_id={id}] focus" for the container line k was made from |
| Commands.StealTargetsChosenContainer | src/main.rs:116-121 | choosing line k sends "[con_id={id}] move to workspace current" for that container |
| Commands.PromptShowsContainerLines | src/main.rs:193-196 | with at least one container and no newline in any container name, the prompt's input splits back into exactly the container lines, in order |
| Commands.ContainerLinesNameDistinctNodes | src/main.rs:168-179 | lines of containers with different ids yield different ids |
| Commands.OutputTargetsChosenOutput | src/main.rs:137-142 | an active output's line is offered, and choosing it sends "move workspace to output {name}" |
| Commands.WorkspaceTargetsChosenWorkspace | src/main.rs:123-135 | choosing workspace line k sends "workspace {name}" or "move window to workspace {name}" for workspace k |
| Commands.CancelledPromptStillSends | src/main.rs:109-142 | an empty prompt output still sends each command, with an empty target |
| Commands.TwoWindowScenario | src/main.rs:109-114 | windows "Firefox" (3) and "Terminal" (7) under one workspace are offered in that order, and choosing "3: Firefox" sends "[con_id=3] focus" |
| QuickWindow.QuickWindow | src/main.rs:80-94 | the swaymsg scratchpad show is started iff some descendant carries "quick"; the alacritty/tmux launcher is started iff none does |
| QuickWindow.ShowAddressesSearchedMark | src/main.rs:82-88 | the shown window is selected by the same mark the search looks for |
| WorkspaceExec.Tilde | src/main.rs:246-247 | "~" or a leading "~/" becomes the home directory when one is known; any other text is unchanged |
| WorkspaceExec.ConfigPath | src/main.rs:97-98 | the mapping file is always the expanded default path |
| WorkspaceExec.ChooseDir | src/main.rs:245-248 | a string entry for the key under "mapping" gives that string expanded; a missing or non-string entry gives the expanded "~" |
| WorkspaceExec.ChangeDirFromMapping | src/main.rs:237-256 | a failed workspace query is returned as an error; an unreadable file gives false and no directory; no document panics; otherwise the chosen directory is entered or the process exits |
| WorkspaceExec.WorkspaceExec | src/main.rs:95-107 | the program starts only after the directory step returned; with no arguments it is an error; otherwise the first argument is the program and the rest are its arguments |
| WorkspaceExec.MappingScenario | src/main.rs:237-256 | the focused "ws1" mapped to "~/proj" enters home + "/proj"; an unmapped workspace enters home |

## Left out

- `main` and the clap argument parsing and dispatch (src/main.rs:34-78): command-line plumbing. Each subcommand is a separate function here.
- The IPC connection and its queries: they are a foreign transport. Their replies are parameters. A failing `get_tree`, `get_workspaces` (src/main.rs:154, used by the workspace prompts), `get_outputs` or `run_command` panics through `expect`; those panics are not modelled. Only the workspace query inside `get_active_workspace` returns its error, and that is modelled.
- `rofi_run` (src/main.rs:186-201): starting rofi, the pipes and the UTF-8 decoding are process I/O. Only the newline join of its input is modelled. Its output is the parameter `chosen`, so a trailing newline rofi may print is just part of the text.
- Starting processes (`Command::spawn`), `set_current_dir` and `process::exit`: OS effects, returned as `Spawn`, `ChangeDirOutcome` and `ExecOutcome` values.
- `open_parse_config` and the YAML parser (src/main.rs:224-230): file I/O and a foreign parser. A parsed value is reduced to string, hash with string keys, or anything else. Entries with non-string keys never match a workspace name, so they are modelled as absent.
- WorkspaceExec.Tilde: stands in for the shellexpand library. It does not model how the home directory is found, or the `\` separator used on Windows.
- The debug print of the outputs (src/main.rs:147) and the error messages.
- Node ids are Rust `i64` values (`SwayTree.Int64`). The lemmas about rendering hold for every integer.
- Listings.GetOutputs: its contract states membership in both directions and a length bound. Order and multiplicity are stated separately by `Listings.GetOutputsAppend` and `Listings.GetOutputsAllActive`.
- Commands.OutputTargetsChosenOutput: only covers output names without ':'. For a name with ':', the command carries the part before the first ':' (see `Selection.SelectionId`).
