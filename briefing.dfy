/**
 * The briefing redactor of the mission-generation route (`extractPlayerBriefing`):
 * a line-by-line filter driven by one `inHiddenSection` flag, followed by a fixed
 * acceptance prompt.
 *
 * A line holding a hide marker switches the flag on and is never emitted. A line
 * holding a keep marker (or starting with the briefing banner) switches it off.
 * A line is emitted when, after that update, the flag is off. Marker matching is
 * case-sensitive substring containment.
 */
module Briefing {
  import opened Text

  const HideMarkers: seq<string> := [
    "EXPECTED COMPLEXITY:", "FOUR POSSIBLE OUTCOMES:",
    "OUTCOME A:", "OUTCOME B:", "OUTCOME C:", "OUTCOME D:",
    "Round-"
  ]

  const KeepMarkers: seq<string> := [
    "OPERATION CODENAME:", "MISSION TYPE:", "TARGET COUNTRY:",
    "INTELLIGENCE OBJECTIVE:", "COVER IDENTITY:", "EQUIPMENT/RESOURCES:"
  ]

  const BriefingBanner: string := "=== CIA MISSION BRIEFING"

  /** The acceptance prompt, written in short pieces so that the verifier can inspect each one. */
  const AcceptancePrompt: string := PromptHead + PromptTail
  const PromptHead: string := "CIA Operative, do you " + "accept this mission? " + "Type \"ACCEPT\" to begin "
  const PromptTail: string := "operations or " + "\"REGENERATE\" for a " + "new assignment."

  /**
   * The markers the redactor looks for. The filter and its properties are stated
   * for any table; the route uses `RouteMarkers`.
   */
  datatype MarkerTable = MarkerTable(hide: seq<string>, keep: seq<string>, banner: string)

  const RouteMarkers: MarkerTable := MarkerTable(HideMarkers, KeepMarkers, BriefingBanner)

  predicate IsHideLine(mk: MarkerTable, line: string) {
    ContainsAny(line, mk.hide)
  }

  predicate IsKeepLine(mk: MarkerTable, line: string) {
    ContainsAny(line, mk.keep) || StartsWith(line, mk.banner)
  }

  /** The value of `inHiddenSection` after reading `line`. */
  function NextHidden(mk: MarkerTable, hidden: bool, line: string): bool {
    if IsHideLine(mk, line) then true
    else if IsKeepLine(mk, line) then false
    else hidden
  }

  /** Whether `line` is pushed to the visible sections when read with flag `hidden`. */
  predicate Emits(mk: MarkerTable, hidden: bool, line: string) {
    !IsHideLine(mk, line) && !NextHidden(mk, hidden, line)
  }

  /** The lines emitted from `lines` when reading starts with flag `hidden`. */
  function Visible(mk: MarkerTable, lines: seq<string>, hidden: bool): seq<string>
    decreases |lines|
  {
    if lines == [] then []
    else
      (if Emits(mk, hidden, lines[0]) then [lines[0]] else [])
      + Visible(mk, lines[1..], NextHidden(mk, hidden, lines[0]))
  }

  /** The flag after reading all of `lines` from flag `hidden`. */
  function FinalHidden(mk: MarkerTable, lines: seq<string>, hidden: bool): bool
    decreases |lines|
  {
    if lines == [] then hidden else FinalHidden(mk, lines[1..], NextHidden(mk, hidden, lines[0]))
  }

  /** The lines of the player briefing: the visible lines, an empty line and the prompt. */
  function PlayerLines(fullBriefing: string): seq<string> {
    Visible(RouteMarkers, SplitLines(fullBriefing), false) + ["", AcceptancePrompt]
  }

  /** The player-facing briefing for a full mission document. */
  function Redact(fullBriefing: string): string {
    JoinLines(PlayerLines(fullBriefing))
  }

  /** The redactor as the route runs it: one pass over the lines, toggling the flag. */
  method ExtractPlayerBriefing(fullBriefing: string) returns (briefing: string)
    ensures briefing == Redact(fullBriefing)
  {
    var lines := SplitLines(fullBriefing);
    var playerVisibleSections: seq<string> := [];
    var inHiddenSection := false;
    for i := 0 to |lines|
      invariant playerVisibleSections + Visible(RouteMarkers, lines[i..], inHiddenSection) == Visible(RouteMarkers, lines, false)
    {
      var line := lines[i];
      FilterStep(RouteMarkers, lines, i, inHiddenSection, playerVisibleSections, Visible(RouteMarkers, lines, false));
      if IsHideLine(RouteMarkers, line) {
        inHiddenSection := true;
        continue;
      }
      if IsKeepLine(RouteMarkers, line) {
        inHiddenSection := false;
      }
      if !inHiddenSection {
        playerVisibleSections := playerVisibleSections + [line];
      }
    }
    assert lines[|lines|..] == [];
    ghost var visible := playerVisibleSections;
    playerVisibleSections := playerVisibleSections + [""];
    playerVisibleSections := playerVisibleSections + [AcceptancePrompt];
    briefing := JoinLines(playerVisibleSections);
    PlayerLinesOf(fullBriefing, visible);
  }

  /** Appending the empty line and the prompt to the visible lines gives the player lines. */
  lemma PlayerLinesOf(fullBriefing: string, visible: seq<string>)
    requires visible == Visible(RouteMarkers, SplitLines(fullBriefing), false)
    ensures visible + [""] + [AcceptancePrompt] == PlayerLines(fullBriefing)
  {
  }

  // ---------------------------------------------------------------------------
  // Properties of the line filter

  /** `sub` is obtained from `s` by deleting elements, keeping the order. */
  predicate IsSubsequence<T(==)>(sub: seq<T>, s: seq<T>)
    decreases |s|
  {
    if sub == [] then true
    else if s == [] then false
    else if sub[0] == s[0] then IsSubsequence(sub[1..], s[1..])
    else IsSubsequence(sub, s[1..])
  }

  /** Putting an element in front of the longer sequence keeps a subsequence a subsequence. */
  lemma {:induction false} SubsequenceSkip<T>(sub: seq<T>, x: T, s: seq<T>)
    requires IsSubsequence(sub, s)
    ensures IsSubsequence(sub, [x] + s)
    decreases |s|, 1
  {
    assert ([x] + s)[1..] == s;
    if sub != [] && sub[0] == x {
      SubsequenceDropHead(sub, s);
    }
  }

  /** Dropping the first element of a subsequence keeps it a subsequence. */
  lemma {:induction false} SubsequenceDropHead<T>(sub: seq<T>, s: seq<T>)
    requires sub != [] && IsSubsequence(sub, s)
    ensures IsSubsequence(sub[1..], s)
    decreases |s|, 0
  {
    assert s == [s[0]] + s[1..];
    if sub[0] == s[0] {
      SubsequenceSkip(sub[1..], s[0], s[1..]);
    } else {
      SubsequenceDropHead(sub, s[1..]);
      SubsequenceSkip(sub[1..], s[0], s[1..]);
    }
  }

  /** The emitted lines are input lines, verbatim and in their original order. */
  lemma {:induction false} VisibleIsSubsequence(mk: MarkerTable, lines: seq<string>, hidden: bool)
    ensures IsSubsequence(Visible(mk, lines, hidden), lines)
    decreases |lines|
  {
    if lines != [] {
      var rest := Visible(mk, lines[1..], NextHidden(mk, hidden, lines[0]));
      VisibleIsSubsequence(mk, lines[1..], NextHidden(mk, hidden, lines[0]));
      if Emits(mk, hidden, lines[0]) {
        assert Visible(mk, lines, hidden) == [lines[0]] + rest;
        assert ([lines[0]] + rest)[1..] == rest;
      } else {
        assert Visible(mk, lines, hidden) == rest;
        SubsequenceSkip(rest, lines[0], lines[1..]);
        assert [lines[0]] + lines[1..] == lines;
      }
    }
  }

  /** Every emitted line is an input line and none of them holds a hide marker. */
  lemma {:induction false} VisibleHasNoHideLine(mk: MarkerTable, lines: seq<string>, hidden: bool)
    ensures forall k :: 0 <= k < |Visible(mk, lines, hidden)| ==>
      Visible(mk, lines, hidden)[k] in lines && !IsHideLine(mk, Visible(mk, lines, hidden)[k])
    decreases |lines|
  {
    if lines != [] {
      VisibleHasNoHideLine(mk, lines[1..], NextHidden(mk, hidden, lines[0]));
    }
  }

  /** One step of the filter: the first line is emitted or not, and the rest is read with the new flag. */
  lemma VisibleCons(mk: MarkerTable, lines: seq<string>, hidden: bool)
    requires lines != []
    ensures Visible(mk, lines, hidden)
         == (if Emits(mk, hidden, lines[0]) then [lines[0]] else [])
            + Visible(mk, lines[1..], NextHidden(mk, hidden, lines[0]))
    ensures FinalHidden(mk, lines, hidden) == FinalHidden(mk, lines[1..], NextHidden(mk, hidden, lines[0]))
  {
  }

  /** One turn of the redactor's loop keeps the emitted lines plus what the rest will emit unchanged. */
  lemma FilterStep(
    mk: MarkerTable, lines: seq<string>, i: nat, hidden: bool, emitted: seq<string>, all: seq<string>)
    requires i < |lines|
    requires emitted + Visible(mk, lines[i..], hidden) == all
    ensures var line := lines[i];
      (if Emits(mk, hidden, line) then emitted + [line] else emitted)
        + Visible(mk, lines[i + 1..], NextHidden(mk, hidden, line)) == all
  {
    VisibleCons(mk, lines[i..], hidden);
    assert lines[i..][1..] == lines[i + 1..];
  }

  /** Reading a concatenation is reading the first part, then the second from the flag left behind. */
  lemma {:induction false} VisibleConcat(mk: MarkerTable, a: seq<string>, b: seq<string>, hidden: bool)
    ensures Visible(mk, a + b, hidden) == Visible(mk, a, hidden) + Visible(mk, b, FinalHidden(mk, a, hidden))
    ensures FinalHidden(mk, a + b, hidden) == FinalHidden(mk, b, FinalHidden(mk, a, hidden))
    decreases |a|
  {
    if a == [] {
      assert a + b == b;
    } else {
      assert (a + b)[0] == a[0];
      assert (a + b)[1..] == a[1..] + b;
      VisibleCons(mk, a + b, hidden);
      VisibleCons(mk, a, hidden);
      VisibleConcat(mk, a[1..], b, NextHidden(mk, hidden, a[0]));
    }
  }

  /** While no hide line has been read, the flag stays off and every line is kept. */
  lemma {:induction false} PrefixBeforeHideKept(mk: MarkerTable, lines: seq<string>, j: nat)
    requires j <= |lines|
    requires forall k :: 0 <= k < j ==> !IsHideLine(mk, lines[k])
    ensures Visible(mk, lines, false) == lines[..j] + Visible(mk, lines[j..], false)
    decreases j
  {
    if j > 0 {
      PrefixBeforeHideKept(mk, lines[1..], j - 1);
      assert lines[1..][..j - 1] == lines[1..j];
      assert lines[1..][j - 1..] == lines[j..];
      assert lines[..j] == [lines[0]] + lines[1..j];
    }
  }

  /** With no hide line at all the filter is the identity. */
  lemma NoHideLineKeepsAll(mk: MarkerTable, lines: seq<string>)
    requires forall k :: 0 <= k < |lines| ==> !IsHideLine(mk, lines[k])
    ensures Visible(mk, lines, false) == lines
  {
    PrefixBeforeHideKept(mk, lines, |lines|);
    assert lines[..|lines|] == lines;
  }

  /**
   * A keep line without a hide marker is emitted whatever the flag, and the
   * lines after it are read with the flag off.
   */
  lemma KeepLineReenables(mk: MarkerTable, before: seq<string>, line: string, after: seq<string>)
    requires IsKeepLine(mk, line) && !IsHideLine(mk, line)
    ensures Visible(mk, before + [line] + after, false)
      == Visible(mk, before, false) + [line] + Visible(mk, after, false)
  {
    VisibleConcat(mk, before + [line], after, false);
    VisibleConcat(mk, before, [line], false);
  }

  /** From a hidden state, lines are dropped until a keep line arrives. */
  lemma {:induction false} HiddenWithoutKeepDropsAll(mk: MarkerTable, lines: seq<string>)
    requires forall k :: 0 <= k < |lines| ==> !IsKeepLine(mk, lines[k])
    ensures Visible(mk, lines, true) == []
    decreases |lines|
  {
    if lines != [] {
      HiddenWithoutKeepDropsAll(mk, lines[1..]);
    }
  }

  /** If no keep line follows a hide line, everything from that hide line on is dropped. */
  lemma TailAfterHideDropped(mk: MarkerTable, before: seq<string>, line: string, after: seq<string>)
    requires IsHideLine(mk, line)
    requires forall k :: 0 <= k < |after| ==> !IsKeepLine(mk, after[k])
    ensures Visible(mk, before + [line] + after, false) == Visible(mk, before, false)
  {
    VisibleConcat(mk, before + [line], after, false);
    VisibleConcat(mk, before, [line], false);
    HiddenWithoutKeepDropsAll(mk, after);
  }

  // ---------------------------------------------------------------------------
  // Properties of the player briefing text

  /** Splitting the player briefing gives the visible lines, an empty line and the prompt. */
  lemma RedactLines(fullBriefing: string)
    ensures SplitLines(Redact(fullBriefing)) == PlayerLines(fullBriefing)
    ensures |PlayerLines(fullBriefing)| >= 2
    ensures PlayerLines(fullBriefing)[|PlayerLines(fullBriefing)| - 2] == ""
    ensures PlayerLines(fullBriefing)[|PlayerLines(fullBriefing)| - 1] == AcceptancePrompt
  {
    var lines := SplitLines(fullBriefing);
    var visible := Visible(RouteMarkers, lines, false);
    VisibleHasNoHideLine(RouteMarkers, lines, false);
    SplitLinesHaveNoNewline(fullBriefing);
    PromptCharacters();
    forall k | 0 <= k < |PlayerLines(fullBriefing)|
      ensures '\n' !in PlayerLines(fullBriefing)[k]
    {
      if k < |visible| {
        assert visible[k] in lines;
      }
    }
    SplitJoin(PlayerLines(fullBriefing));
  }

  /** Neither a newline, nor a colon, nor a hyphen occurs in `s`. */
  predicate Plain(s: string) {
    forall i :: 0 <= i < |s| ==> s[i] != '\n' && s[i] != ':' && s[i] != '-'
  }

  lemma PlainConcat(a: string, b: string)
    requires Plain(a) && Plain(b)
    ensures Plain(a + b)
  {
  }

  lemma PromptHeadPlain()
    ensures Plain(PromptHead)
  {
    assert Plain("CIA Operative, do you ") && Plain("accept this mission? ") && Plain("Type \"ACCEPT\" to begin ");
    PlainConcat("CIA Operative, do you ", "accept this mission? ");
    PlainConcat("CIA Operative, do you " + "accept this mission? ", "Type \"ACCEPT\" to begin ");
  }

  lemma PromptTailPlain()
    ensures Plain(PromptTail)
  {
    assert Plain("operations or ") && Plain("\"REGENERATE\" for a ") && Plain("new assignment.");
    PlainConcat("operations or ", "\"REGENERATE\" for a ");
    PlainConcat("operations or " + "\"REGENERATE\" for a ", "new assignment.");
  }

  /** The acceptance prompt is a single line with no colon and no hyphen. */
  lemma PromptCharacters()
    ensures '\n' !in AcceptancePrompt && ':' !in AcceptancePrompt && '-' !in AcceptancePrompt
  {
    PromptHeadPlain();
    PromptTailPlain();
    PlainConcat(PromptHead, PromptTail);
  }

  /** No hide marker occurs anywhere in the acceptance prompt. */
  lemma PromptHasNoHideMarker()
    ensures !IsHideLine(RouteMarkers, AcceptancePrompt) && !IsHideLine(RouteMarkers, "")
  {
    PromptCharacters();
    forall i | 0 <= i < |HideMarkers|
      ensures !Contains(AcceptancePrompt, HideMarkers[i])
    {
      if i < 6 {
        assert HideMarkers[i][|HideMarkers[i]| - 1] == ':';
        MissingCharNotContained(AcceptancePrompt, HideMarkers[i], ':');
      } else {
        assert HideMarkers[i][5] == '-';
        MissingCharNotContained(AcceptancePrompt, HideMarkers[i], '-');
      }
    }
  }

  /**
   * The player briefing contains none of the hide markers, anywhere in its text,
   * whatever the full document holds.
   */
  lemma RedactHidesMarkers(fullBriefing: string, m: nat)
    requires m < |HideMarkers|
    ensures !Contains(Redact(fullBriefing), HideMarkers[m])
  {
    var player := PlayerLines(fullBriefing);
    var lines := SplitLines(fullBriefing);
    VisibleHasNoHideLine(RouteMarkers, lines, false);
    PromptHasNoHideMarker();
    assert '\n' !in HideMarkers[m];
    if Contains(Redact(fullBriefing), HideMarkers[m]) {
      JoinContains(player, HideMarkers[m]);
      var k :| 0 <= k < |player| && Contains(player[k], HideMarkers[m]);
      assert IsHideLine(RouteMarkers, player[k]);
      assert false;
    }
  }

  /**
   * A document without any hide marker is shown whole, followed by an empty
   * line and the acceptance prompt.
   */
  lemma NoHideMarkerRoundTrip(fullBriefing: string)
    requires forall m :: 0 <= m < |HideMarkers| ==> !Contains(fullBriefing, HideMarkers[m])
    ensures Redact(fullBriefing) == fullBriefing + "\n\n" + AcceptancePrompt
  {
    var lines := SplitLines(fullBriefing);
    JoinSplit(fullBriefing);
    forall k | 0 <= k < |lines|
      ensures !IsHideLine(RouteMarkers, lines[k])
    {
      if IsHideLine(RouteMarkers, lines[k]) {
        var m :| 0 <= m < |HideMarkers| && Contains(lines[k], HideMarkers[m]);
        ContainsJoin(lines, k, HideMarkers[m]);
        assert false;
      }
    }
    NoHideLineKeepsAll(RouteMarkers, lines);
    JoinAppend(lines, "");
    JoinAppend(lines + [""], AcceptancePrompt);
    assert lines + ["", AcceptancePrompt] == lines + [""] + [AcceptancePrompt];
  }

  lemma {:induction false} JoinAppend(lines: seq<string>, last: string)
    requires |lines| >= 1
    ensures JoinLines(lines + [last]) == JoinLines(lines) + "\n" + last
    decreases |lines|
  {
    if |lines| == 1 {
      assert lines + [last] == [lines[0], last];
    } else {
      assert (lines + [last])[1..] == lines[1..] + [last];
      JoinAppend(lines[1..], last);
    }
  }
}
