/** strip: characters taken off both ends of a text. */
module Stripping {
  function StripLeft(s: string, strip: char -> bool): string {
    if s != [] && strip(s[0]) then StripLeft(s[1..], strip) else s
  }

  function StripRight(s: string, strip: char -> bool): string {
    if s != [] && strip(s[|s| - 1]) then StripRight(s[..|s| - 1], strip) else s
  }

  function Strip(s: string, strip: char -> bool): string {
    StripRight(StripLeft(s, strip), strip)
  }

  ghost predicate All(s: string, strip: char -> bool) {
    forall i :: 0 <= i < |s| ==> strip(s[i])
  }

  /** s is the core with strippable characters around it. */
  ghost predicate Around(s: string, strip: char -> bool, lead: string, core: string, tail: string) {
    && s == lead + core + tail && All(lead, strip) && All(tail, strip)
    && (core != "" ==> !strip(core[0]) && !strip(core[|core| - 1]))
  }

  lemma {:induction false} StripLeftIs(s: string, strip: char -> bool, lead: string, rest: string)
    requires s == lead + rest && All(lead, strip) && (rest != "" ==> !strip(rest[0]))
    ensures StripLeft(s, strip) == rest
  {
    if lead == "" {
      assert s == rest;
    } else {
      assert s[0] == lead[0] && s[1..] == lead[1..] + rest;
      StripLeftIs(s[1..], strip, lead[1..], rest);
    }
  }

  lemma {:induction false} StripRightIs(s: string, strip: char -> bool, rest: string, tail: string)
    requires s == rest + tail && All(tail, strip) && (rest != "" ==> !strip(rest[|rest| - 1]))
    ensures StripRight(s, strip) == rest
  {
    if tail == "" {
      assert s == rest;
    } else {
      var less := tail[..|tail| - 1];
      assert s[|s| - 1] == tail[|tail| - 1] && s[..|s| - 1] == rest + less;
      StripRightIs(s[..|s| - 1], strip, rest, less);
    }
  }

  lemma StripIs(s: string, strip: char -> bool, lead: string, core: string, tail: string)
    requires Around(s, strip, lead, core, tail)
    ensures Strip(s, strip) == core
  {
    if core == "" {
      assert s == (lead + tail) + "" && All(lead + tail, strip);
      StripLeftIs(s, strip, lead + tail, "");
    } else {
      assert s == lead + (core + tail) && (core + tail)[0] == core[0];
      StripLeftIs(s, strip, lead, core + tail);
      StripRightIs(core + tail, strip, core, tail);
    }
  }

  lemma {:induction false} StripLeftSplits(s: string, strip: char -> bool) returns (lead: string)
    ensures s == lead + StripLeft(s, strip) && All(lead, strip)
    ensures StripLeft(s, strip) != "" ==> !strip(StripLeft(s, strip)[0])
  {
    lead := "";
    if s != [] && strip(s[0]) {
      var rest := StripLeftSplits(s[1..], strip);
      lead := [s[0]] + rest;
    }
  }

  lemma {:induction false} StripRightSplits(s: string, strip: char -> bool) returns (tail: string)
    ensures s == StripRight(s, strip) + tail && All(tail, strip)
    ensures var r := StripRight(s, strip); r != "" ==> !strip(r[|r| - 1]) && r[0] == s[0]
  {
    tail := "";
    if s != [] && strip(s[|s| - 1]) {
      var rest := StripRightSplits(s[..|s| - 1], strip);
      tail := rest + [s[|s| - 1]];
    }
  }

  /** Strip takes off what can be taken off at both ends. */
  lemma StripSplits(s: string, strip: char -> bool) returns (lead: string, tail: string)
    ensures Around(s, strip, lead, Strip(s, strip), tail)
  {
    lead := StripLeftSplits(s, strip);
    tail := StripRightSplits(StripLeft(s, strip), strip);
  }

  /** Stripping at the right never reaches a character that is not stripped. */
  lemma StripRightStops(s: string, strip: char -> bool, i: nat)
    requires i < |s| && !strip(s[i])
    ensures i < |StripRight(s, strip)| <= |s| && StripRight(s, strip) == s[..|StripRight(s, strip)|]
  {
    var tail := StripRightSplits(s, strip);
    var kept := |StripRight(s, strip)|;
    assert forall k :: kept <= k < |s| ==> s[k] == tail[k - kept];
  }
}
