/**
 The quick-window toggle (`quick_window`): when a descendant of the tree
 carries the mark "quick", `swaymsg` is started to show it from the
 scratchpad; otherwise a terminal running a tmux session named "quick" is
 started. The choice is derived from the live tree on every call; nothing
 is remembered between calls.
 */
module QuickWindow {
  import opened SwayTree
  import MarkSearch

  /** A process to start: the program and its arguments. */
  datatype Spawn = Spawn(program: string, args: seq<string>)

  const QuickMark: string := "quick"

  /** The terminal that creates the quick window (and later marks it). */
  const LaunchQuickTerminal: Spawn :=
    Spawn("alacritty", ["--class", "quick_scratchpad", "-e", "tmux", "new-session", "-A", "-s", "quick"])

  /** The `swaymsg` call that shows the marked window from the scratchpad. */
  const ShowQuickScratchpad: Spawn :=
    Spawn("swaymsg", ["[con_mark=\"quick\"]", "scratchpad", "show"])

  /** Exactly one process is started: the scratchpad show when the mark exists, the launcher otherwise. */
  function QuickWindow(tree: Node): (action: Spawn)
    ensures action == ShowQuickScratchpad <==> MarkSearch.MarkBelow(tree, QuickMark)
    ensures action == LaunchQuickTerminal <==> !MarkSearch.MarkBelow(tree, QuickMark)
  {
    MarkSearch.SearchFindsMarkBelow(tree, QuickMark);
    if MarkSearch.SearchTreeForMark(tree, QuickMark) then ShowQuickScratchpad else LaunchQuickTerminal
  }

  /** The shown window is addressed by the same mark the search looks for. */
  lemma ShowAddressesSearchedMark()
    ensures ShowQuickScratchpad.args[0] == "[con_mark=\"" + QuickMark + "\"]"
  {
  }
}
