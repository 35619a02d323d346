/** The names under which LoRA adapters are loaded into the sampling server. */
module AdapterNames {
  import opened Text
  import opened Stripping

  predicate SafeChar(c: char) {
    'A' <= c <= 'Z' || 'a' <= c <= 'z' || '0' <= c <= '9' || c == '_' || c == '.' || c == '-'
  }

  /** re.sub: every maximal stretch of unsafe characters becomes one dash. */
  function Collapse(s: string, inGap: bool): string {
    if s == [] then []
    else if SafeChar(s[0]) then [s[0]] + Collapse(s[1..], false)
    else if inGap then Collapse(s[1..], true)
    else ['-'] + Collapse(s[1..], true)
  }

  predicate IsDash(c: char) {
    c == '-'
  }

  /** The part of the name that stands for the run. */
  function AdapterRun(runId: string): string {
    var safe := Strip(Collapse(runId, false), IsDash);
    if safe == "" then "run" else safe
  }

  function AdapterName(runId: string, version: int): string {
    AdapterRun(runId) + "-ckpt-" + Signed(version)
  }

  /** Already in the safe alphabet, not empty, and no dash at either end. */
  predicate SafeId(runId: string) {
    && runId != ""
    && (forall i :: 0 <= i < |runId| ==> SafeChar(runId[i]))
    && runId[0] != '-' && runId[|runId| - 1] != '-'
  }

  lemma {:induction false} CollapseKeepsSafe(s: string, inGap: bool)
    requires forall i :: 0 <= i < |s| ==> SafeChar(s[i])
    ensures Collapse(s, inGap) == s
  {
    if s != [] {
      CollapseKeepsSafe(s[1..], false);
      assert s == [s[0]] + s[1..];
    }
  }

  /** Safe ids name themselves. */
  lemma SafeIdKept(runId: string)
    requires SafeId(runId)
    ensures AdapterRun(runId) == runId
  {
    CollapseKeepsSafe(runId, false);
    assert runId == "" + runId + "";
    StripIs(runId, IsDash, "", runId, "");
  }

  lemma {:induction false} CollapseIsSafe(s: string, inGap: bool)
    ensures forall i :: 0 <= i < |Collapse(s, inGap)| ==> SafeChar(Collapse(s, inGap)[i])
  {
    if s != [] {
      CollapseIsSafe(s[1..], false);
      CollapseIsSafe(s[1..], true);
    }
  }

  lemma {:induction false} CollapseAfterSafe(a: string, rest: string, inGap: bool)
    requires a != "" && SafeChar(a[|a| - 1])
    ensures Collapse(a + rest, inGap) == Collapse(a, inGap) + Collapse(rest, false)
  {
    assert (a + rest)[0] == a[0] && (a + rest)[1..] == a[1..] + rest;
    if |a| == 1 {
      assert a[1..] == "" && "" + rest == rest;
    } else {
      CollapseAfterSafe(a[1..], rest, !SafeChar(a[0]));
    }
  }

  lemma {:induction false} CollapseGap(gap: string, b: string, inGap: bool)
    requires gap != "" && (forall i :: 0 <= i < |gap| ==> !SafeChar(gap[i])) && (b != "" ==> SafeChar(b[0]))
    ensures Collapse(gap + b, inGap) == (if inGap then "" else "-") + Collapse(b, false)
  {
    assert (gap + b)[0] == gap[0] && (gap + b)[1..] == gap[1..] + b;
    if |gap| == 1 {
      assert gap[1..] == "" && "" + b == b;
    } else {
      CollapseGap(gap[1..], b, true);
    }
  }

  /** A stretch of unsafe characters, however long, becomes one dash; what is around it is collapsed by
      itself. */
  lemma GapBecomesDash(a: string, gap: string, b: string)
    requires gap != "" && forall i :: 0 <= i < |gap| ==> !SafeChar(gap[i])
    requires (a != "" ==> SafeChar(a[|a| - 1])) && (b != "" ==> SafeChar(b[0]))
    ensures Collapse(a + (gap + b), false) == Collapse(a, false) + ("-" + Collapse(b, false))
  {
    CollapseGap(gap, b, false);
    CollapseBefore(a, gap + b);
  }

  lemma CollapseBefore(a: string, rest: string)
    requires a != "" ==> SafeChar(a[|a| - 1])
    ensures Collapse(a + rest, false) == Collapse(a, false) + Collapse(rest, false)
  {
    if a == "" {
      assert a + rest == rest && Collapse(a, false) == "";
    } else {
      CollapseAfterSafe(a, rest, false);
    }
  }

  /** Dashes at the ends of the collapsed id are left out; an id with nothing else stands as "run". */
  lemma EndDashesDrop(runId: string, lead: string, core: string, tail: string)
    requires Around(Collapse(runId, false), IsDash, lead, core, tail)
    ensures AdapterRun(runId) == if core == "" then "run" else core
  {
    StripIs(Collapse(runId, false), IsDash, lead, core, tail);
  }

  /** Whatever the run id, its part of the name is a safe id; safe ids are exactly the fixed points. */
  lemma AdapterRunIsSafe(runId: string)
    ensures SafeId(AdapterRun(runId))
    ensures AdapterRun(runId) == runId <==> SafeId(runId)
  {
    CollapseIsSafe(runId, false);
    var whole := Collapse(runId, false);
    var lead, tail := StripSplits(whole, IsDash);
    var core := Strip(whole, IsDash);
    forall i | 0 <= i < |core| ensures SafeChar(core[i]) { assert whole[|lead| + i] == core[i]; }
    if SafeId(runId) { SafeIdKept(runId); }
  }

  /** The text before the number, and the number without its sign. */
  lemma SplitName(runId: string, version: int)
    ensures AdapterName(runId, version)
         == (AdapterRun(runId) + (if version < 0 then "-ckpt-" else "-ckpt"))
            + ['-'] + Decimal(if version < 0 then -version else version)
  {
    if version < 0 {
      assert "-ckpt-" + ("-" + Decimal(-version)) == "-ckpt-" + ['-'] + Decimal(-version);
    } else {
      assert "-ckpt-" == "-ckpt" + ['-'];
    }
  }

  /** Two names agree exactly when the versions and the run parts do. */
  lemma AdapterNameInjective(r: string, v: int, r': string, v': int)
    ensures AdapterName(r, v) == AdapterName(r', v') <==> AdapterRun(r) == AdapterRun(r') && v == v'
  {
    if AdapterName(r, v) == AdapterName(r', v') {
      var tail, tail' := if v < 0 then "-ckpt-" else "-ckpt", if v' < 0 then "-ckpt-" else "-ckpt";
      var a, a' := AdapterRun(r) + tail, AdapterRun(r') + tail';
      var d, d' := Decimal(if v < 0 then -v else v), Decimal(if v' < 0 then -v' else v');
      SplitName(r, v);
      SplitName(r', v');
      LastSeparator(a, d, a', d', '-');
      DecimalInjective(if v < 0 then -v else v, if v' < 0 then -v' else v');
      assert a[|a| - 1] == tail[|tail| - 1] && a'[|a'| - 1] == tail'[|tail'| - 1];
      SameEnds(AdapterRun(r), tail, AdapterRun(r'), tail');
    }
  }

  /** Different run ids may share a name. */
  lemma UnsafeIdsCollide()
    ensures "a b" != "a-b" && AdapterName("a b", 0) == AdapterName("a-b", 0)
  {
    assert Collapse("a b", false) == "a-b" by {
      assert "a b"[1..] == " b" && " b"[1..] == "b" && "b"[1..] == "";
      assert Collapse("b", true) == "b";
      assert Collapse(" b", false) == "-b";
    }
    CollapseKeepsSafe("a-b", false);
  }
}
