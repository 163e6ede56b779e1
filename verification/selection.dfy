/**
 The text exchanged with the selection prompt: the candidate lines are
 joined with newlines on the way in (`rofi_run`), and the chosen text is cut
 at its first ':' on the way out (`rofi_get_selection_id`). The prompt
 process itself is outside the model: what it prints is an input here.
 */
module Selection {

  /**
   The first piece of `s` when split at `sep`, as `s.split(sep).next()`:
   the longest prefix of `s` without `sep`. Splitting always yields a first
   piece, so this never fails; an empty `s` gives "".
   */
  function FirstField(s: string, sep: char): (r: string)
    ensures r <= s
    ensures sep !in r
    ensures |r| < |s| ==> s[|r|] == sep
  {
    if s == [] || s[0] == sep then []
    else [s[0]] + FirstField(s[1..], sep)
  }

  /** The id part of the chosen line: everything before its first ':'. */
  function SelectionId(chosen: string): (r: string)
    ensures r <= chosen && ':' !in r
    ensures |r| == |chosen| || chosen[|r|] == ':'
  {
    FirstField(chosen, ':')
  }

  /** The three properties of `FirstField` pin down exactly one string. */
  lemma {:induction false} FirstFieldUnique(s: string, sep: char, r: string)
    requires r <= s && sep !in r
    requires |r| == |s| || s[|r|] == sep
    ensures FirstField(s, sep) == r
  {
  }

  /** A line `p + ":" + rest` with no ':' in `p` yields `p` as its id. */
  lemma SelectionIdOfPrefix(p: string, rest: string)
    requires ':' !in p
    ensures SelectionId(p + ":" + rest) == p
  {
    var s := p + ":" + rest;
    assert s[|p|] == ':';
    assert p <= s;
    FirstFieldUnique(s, ':', p);
  }

  /** A chosen text without ':' is its own id. */
  lemma SelectionIdWithoutColon(chosen: string)
    requires ':' !in chosen
    ensures SelectionId(chosen) == chosen
  {
    FirstFieldUnique(chosen, ':', chosen);
  }

  /** `lines.join("\n")`: the text written to the prompt's input. */
  function JoinLines(lines: seq<string>): string
  {
    if lines == [] then ""
    else if |lines| == 1 then lines[0]
    else lines[0] + "\n" + JoinLines(lines[1..])
  }

  /**
   The inverse of `JoinLines`: the pieces of `s` between newlines. It splits
   the joined text back for the statements below; it does not describe how
   the prompt itself reads its input.
   */
  function SplitLines(s: string): (r: seq<string>)
    ensures |r| > 0
    ensures forall i :: 0 <= i < |r| ==> '\n' !in r[i]
    decreases |s|
  {
    var f := FirstField(s, '\n');
    if |f| == |s| then [s]
    else [f] + SplitLines(s[|f| + 1..])
  }

  /** No line contains the newline that separates them. */
  ghost predicate SingleLines(lines: seq<string>) {
    forall i :: 0 <= i < |lines| ==> '\n' !in lines[i]
  }

  /**
   The prompt offers exactly the given lines, in order, when there is at
   least one and none contains a newline.
   */
  lemma {:induction false} SplitJoinRoundTrip(lines: seq<string>)
    requires |lines| > 0 && SingleLines(lines)
    ensures SplitLines(JoinLines(lines)) == lines
    decreases |lines|
  {
    var s := JoinLines(lines);
    if |lines| == 1 {
      FirstFieldUnique(s, '\n', s);
    } else {
      var tail := JoinLines(lines[1..]);
      assert s == lines[0] + "\n" + tail;
      assert s[|lines[0]|] == '\n';
      assert lines[0] <= s;
      FirstFieldUnique(s, '\n', lines[0]);
      assert s[|lines[0]| + 1..] == tail;
      SplitJoinRoundTrip(lines[1..]);
    }
  }

  /**
   An empty candidate list is written as empty input. The join cannot be
   undone there: splitting "" gives one empty piece, not an empty list, which
   is why the round trip above needs at least one line.
   */
  lemma JoinOfEmptyListNotRecovered()
    ensures JoinLines([]) == ""
    ensures SplitLines(JoinLines([])) == [""]
  {
  }
}
