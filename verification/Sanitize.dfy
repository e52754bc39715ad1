/** sanitizeForError: a server-chosen string made safe to render inside an error. */
module Sanitize {
  import opened Text

  /** C0, DEL or C1. */
  predicate Control(c: char) {
    var u := c as int;
    u < 0x20 || u == 0x7F || 0x80 <= u <= 0x9F
  }

  /** The text with each run of controls replaced by one space, a leading run by nothing. */
  function Collapsed(s: string): string {
    if s == "" then "" else
      var before := Collapsed(s[..|s| - 1]);
      if !Control(s[|s| - 1]) then before + [s[|s| - 1]]
      else if before == "" || Control(s[|s| - 2]) then before
      else before + " "
  }

  function DropTrailingControls(s: string): (r: string)
    ensures r <= s && (r == "" || !Control(r[|r| - 1]))
  {
    if s != "" && Control(s[|s| - 1]) then DropTrailingControls(s[..|s| - 1]) else s
  }

  /** The runes that are neither control nor white space, in order. */
  function Visible(s: string): string {
    if s == "" then "" else
      Visible(s[..|s| - 1]) +
      if Control(s[|s| - 1]) || IsSpace(s[|s| - 1]) then "" else [s[|s| - 1]]
  }

  /** Everything worth rendering, before the cap. */
  function Body(s: string): string { Collapsed(DropTrailingControls(s)) }

  /** What the loop below computes, stated without a loop. */
  function Clean(s: string, max: nat): string {
    if |Body(s)| <= max then Trim(Body(s)) else Trim(Body(s)[..max]) + "..."
  }

  lemma {:induction false} CollapsedFacts(s: string)
    ensures forall c :: c in Collapsed(s) ==> !Control(c)
    ensures Inked(Collapsed(s)) == Visible(s)
  {
    if s != "" {
      var init, c := s[..|s| - 1], s[|s| - 1];
      var before := Collapsed(init);
      CollapsedFacts(init);
      InkedAppend(before, [c]);
      InkedAppend(before, " ");
      assert [c][..0] == "" && " "[..0] == "";
    }
  }

  lemma {:induction false} CollapsedGrows(s: string, i: nat)
    requires i <= |s|
    ensures Collapsed(s[..i]) <= Collapsed(s)
    decreases |s|
  {
    if i < |s| {
      CollapsedGrows(s[..|s| - 1], i);
      assert s[..|s| - 1][..i] == s[..i];
    } else {
      assert s[..i] == s;
    }
  }

  lemma {:induction false} CollapsedTail(s: string)
    ensures Collapsed(s) == Body(s) || Collapsed(s) == Body(s) + " "
    ensures Trim(Collapsed(s)) == Trim(Body(s))
  {
    if s != "" && Control(s[|s| - 1]) {
      CollapsedTail(s[..|s| - 1]);
      if |s| >= 2 && !Control(s[|s| - 2]) {
        assert DropTrailingControls(s[..|s| - 1]) == s[..|s| - 1];
      }
      TrimDropsLast(Body(s), ' ');
    }
  }

  lemma {:induction false} VisibleIgnoresTrailingControls(s: string)
    ensures Visible(DropTrailingControls(s)) == Visible(s)
  {
    if s != "" && Control(s[|s| - 1]) {
      VisibleIgnoresTrailingControls(s[..|s| - 1]);
    }
  }

  lemma {:induction false} DropKeepsInk(s: string, i: nat)
    requires i < |s| && !Control(s[i])
    ensures i < |DropTrailingControls(s)|
  {
    if Control(s[|s| - 1]) {
      DropKeepsInk(s[..|s| - 1], i);
    }
  }

  /**
   For every string and cap: no C0, DEL or C1 survives, the cap holds, and no visible text is
   invented, reordered or skipped.
   */
  lemma SanitizerBound(s: string, max: nat)
    ensures var t := Trim(if |Body(s)| <= max then Body(s) else Body(s)[..max]);
            && Clean(s, max) == t + (if |Body(s)| <= max then "" else "...")
            && |t| <= max
            && (forall c :: c in Clean(s, max) ==> 0x20 <= c as int < 0x7F || 0xA0 <= c as int)
            && Inked(t) <= Visible(s)
            && (|Body(s)| <= max ==> Inked(t) == Visible(s))
  {
    hide Trim, Inked, Visible, Collapsed, DropTrailingControls;
    var b := Body(s);
    CollapsedFacts(DropTrailingControls(s));
    VisibleIgnoresTrailingControls(s);
    assert Inked(b) == Visible(s);
    if |b| <= max {
      TrimFacts(b);
    } else {
      TrimFacts(b[..max]);
      assert b == b[..max] + b[max..];
      InkedAppend(b[..max], b[max..]);
    }
    forall c | c in Clean(s, max) ensures !Control(c) {
      assert c in b || c in "...";
    }
  }

  /** The maximal runs of runes that are neither C0, DEL nor C1, in order. */
  function Runs(s: string): (runs: seq<string>)
    ensures s != "" && (0x20 <= s[|s| - 1] as int < 0x7F || 0xA0 <= s[|s| - 1] as int) ==> runs != []
  {
    if s == "" then [] else
      var n := |s| - 1;
      var before, c := Runs(s[..n]), s[n] as int;
      if c < 0x20 || 0x7F <= c < 0xA0 then before
      else if n == 0 || s[n - 1] as int < 0x20 || 0x7F <= s[n - 1] as int < 0xA0 then before + [[s[n]]]
      else before[..|before| - 1] + [before[|before| - 1] + [s[n]]]
  }

  function Spaced(runs: seq<string>): string {
    if runs == [] then "" else
      var n := |runs| - 1;
      if n == 0 then runs[0] else Spaced(runs[..n]) + " " + runs[n]
  }

  /**
   What is rendered, before the cap, is those runs with one space between each two: so a stripped
   control never joins two words, and nothing else is touched.
   */
  lemma RunsAreSpaced(s: string)
    ensures Body(s) == Spaced(Runs(s))
    ensures forall max: nat :: |Spaced(Runs(s))| <= max ==> Clean(s, max) == Trim(Spaced(Runs(s)))
  {
    hide Trim, Runs, Spaced;
    DropKeepsRuns(s);
    SpacedRuns(DropTrailingControls(s));
  }

  lemma {:induction false} DropKeepsRuns(s: string)
    ensures Runs(DropTrailingControls(s)) == Runs(s)
  {
    if s != "" && Control(s[|s| - 1]) {
      DropKeepsRuns(s[..|s| - 1]);
    }
  }

  lemma {:induction false} SpacedRuns(s: string)
    ensures Collapsed(s) == Spaced(Runs(s)) + if Runs(s) != [] && Control(s[|s| - 1]) then " " else ""
    ensures Spaced(Runs(s)) == "" <==> Runs(s) == []
  {
    hide Spaced;
    SpacedNone();
    if s != "" {
      var n := |s| - 1;
      SpacedRuns(s[..n]);
      if !Control(s[n]) {
        if n == 0 || Control(s[n - 1]) {
          SpacedMore(Runs(s[..n]), [s[n]]);
        } else {
          SpacedOn(Runs(s[..n]), s[n]);
        }
      }
    }
  }

  lemma SpacedNone()
    ensures Spaced([]) == ""
  {}

  lemma SpacedMore(runs: seq<string>, run: string)
    ensures Spaced(runs + [run]) == if runs == [] then run else Spaced(runs) + " " + run
  {
    assert (runs + [run])[..|runs|] == runs;
  }

  lemma SpacedOn(runs: seq<string>, c: char)
    requires runs != []
    ensures var n := |runs| - 1; Spaced(runs[..n] + [runs[n] + [c]]) == Spaced(runs) + [c]
  {
    hide Spaced;
    var n := |runs| - 1;
    SpacedMore(runs[..n], runs[n]);
    SpacedMore(runs[..n], runs[n] + [c]);
    assert runs == runs[..n] + [runs[n]];
    Regroup(Spaced(runs[..n]) + " ", runs[n], [c]);
  }

  lemma NoRunes(s: string)
    ensures Collapsed(s[..0]) == "" && Body(s[..0]) == ""
  {}

  lemma OneRune(s: string, i: nat)
    requires i < |s|
    ensures Collapsed(s[..i + 1]) ==
              if !Control(s[i]) then Collapsed(s[..i]) + [s[i]]
              else if Collapsed(s[..i]) == "" || Control(s[i - 1]) then Collapsed(s[..i])
              else Collapsed(s[..i]) + " "
    ensures Body(s[..i + 1]) == if Control(s[i]) then Body(s[..i]) else Collapsed(s[..i + 1])
    ensures i == 0 ==> Collapsed(s[..i]) == ""
  {
    hide Control;
    assert s[..i + 1][..i] == s[..i];
  }

  /** The loop over runes: one builder, whether a space was just written, and a count. */
  method SanitizeForError(s: string, max: nat) returns (r: string)
    ensures r == Clean(s, max)
  {
    hide Trim, Collapsed, Body, Control;
    var b, space, written := "", false, 0;
    var i := 0;
    NoRunes(s);
    while i < |s|
      invariant 0 <= i <= |s|
      invariant b == Collapsed(s[..i]) && written == |b|
      invariant space <==> i > 0 && Control(s[i - 1]) && b != ""
      invariant written <= max + (if space then 1 else 0)
      invariant |Body(s[..i])| <= max
      invariant written > max ==> b[max] == ' '
    {
      var c := s[i];
      OneRune(s, i);
      i := i + 1;
      if Control(c) {
        if !space && written > 0 {
          b, written, space := b + " ", written + 1, true;
        }
        continue;
      }
      space := false;
      if written >= max {
        CapReached(s, i - 1, max, b);
        return Trim(b) + "...";
      }
      b, written := b + [c], written + 1;
    }
    assert s[..|s|] == s;
    CollapsedTail(s);
    return Trim(b);
  }

  lemma CapReached(s: string, i: nat, max: nat, b: string)
    requires i < |s| && !Control(s[i]) && b == Collapsed(s[..i])
    requires max <= |b| <= max + 1 && (|b| == max + 1 ==> b[max] == ' ')
    ensures |Body(s)| > max && Trim(b) == Trim(Body(s)[..max])
  {
    var d := DropTrailingControls(s);
    DropKeepsInk(s, i);
    assert d[..i + 1] == s[..i + 1] && s[..i + 1][..i] == s[..i];
    CollapsedGrows(d, i + 1);
    assert Collapsed(s[..i + 1]) == b + [s[i]];
    if |b| == max {
      assert Body(s)[..max] == b;
    } else {
      assert b == b[..max] + " " && Body(s)[..max] == b[..max];
      TrimDropsLast(b[..max], ' ');
    }
  }
}
