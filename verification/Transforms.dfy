/**
 The block transforms as machines over a sequence of blocks and errors: what each does with one
 step, what it still holds, and what it says when the sequence ends. The loops of transform.go
 are proved to show a reader a prefix of exactly that, and so is any composition of them.
 */
module Transforms {
  import opened Text
  import opened Reading
  import opened Events

  type BlockStep = Step<Block, string>

  datatype Stage =
    | SkipBlocks(drop: seq<Block -> bool>)
    | OnlyBlocks(keep: seq<Block -> bool>)
    | OnlyAgent(agent: string)
    | SkipIntermediateEnds
    | MergeText

  /** What a transform holds between two steps. */
  datatype Hold = Hold(held: Option<Block>, accumulated: string, ctx: BlockContext)

  const NO_CONTEXT := BlockContext("", 0, 0)
  const NOTHING_HELD := Hold(None, "", NO_CONTEXT)

  predicate AnyMatch(predicates: seq<Block -> bool>, block: Block) {
    exists i :: 0 <= i < |predicates| && predicates[i](block)
  }

  predicate Keeps(stage: Stage, block: Block) {
    match stage
    case SkipBlocks(drop) => !AnyMatch(drop, block)
    case OnlyBlocks(keep) => AnyMatch(keep, block)
    case OnlyAgent(agent) => agent == "" || block.ctx.agent == agent
    case SkipIntermediateEnds => !block.ResponseEndBlock?
    case MergeText => !block.TextDone?
  }

  /** The accumulated text as one block, if there is any. */
  function Merged(ctx: BlockContext, text: string): seq<BlockStep> {
    if text == "" then [] else [Item(TextDoneOf(ctx, text))]
  }

  /** What one step makes a transform yield. */
  function Yields(stage: Stage, hold: Hold, step: BlockStep): seq<BlockStep> {
    if step.Fault? then [step]
    else if stage.MergeText? && step.item.ResponseEndBlock? then Merged(step.item.ctx, hold.accumulated) + [step]
    else if Keeps(stage, step.item) then [step]
    else []
  }

  function Holds(stage: Stage, hold: Hold, step: BlockStep): Hold {
    if step.Fault? then hold
    else if stage.SkipIntermediateEnds? then
      hold.(held := if step.item.ResponseEndBlock? then Some(step.item) else None)
    else if stage.MergeText? && step.item.TextDone? then
      hold.(accumulated := hold.accumulated + step.item.fullText, ctx := step.item.ctx)
    else if stage.MergeText? && step.item.ResponseEndBlock? then hold.(accumulated := "")
    else hold
  }

  /** What it yields once the sequence has ended. */
  function Finally(stage: Stage, hold: Hold): seq<BlockStep> {
    if stage.SkipIntermediateEnds? && hold.held.Some? then [Item(hold.held.value)]
    else if stage.MergeText? then Merged(hold.ctx, hold.accumulated)
    else []
  }

  function Out(stage: Stage, hold: Hold, steps: seq<BlockStep>): seq<BlockStep> {
    if steps == [] then [] else
      var before := steps[..|steps| - 1];
      Out(stage, hold, before) + Yields(stage, After(stage, hold, before), steps[|steps| - 1])
  }

  function After(stage: Stage, hold: Hold, steps: seq<BlockStep>): Hold {
    if steps == [] then hold else
      Holds(stage, After(stage, hold, steps[..|steps| - 1]), steps[|steps| - 1])
  }

  /** All a transform yields of a sequence. */
  function Whole(stage: Stage, steps: seq<BlockStep>): seq<BlockStep> {
    Out(stage, NOTHING_HELD, steps) + Finally(stage, After(stage, NOTHING_HELD, steps))
  }

  /** Pipe: left to right. */
  function Piped(stages: seq<Stage>, steps: seq<BlockStep>): seq<BlockStep> {
    if stages == [] then steps else Piped(stages[1..], Whole(stages[0], steps))
  }

  lemma OutExtend(stage: Stage, hold: Hold, before: seq<BlockStep>, step: BlockStep)
    ensures Out(stage, hold, before + [step]) ==
              Out(stage, hold, before) + Yields(stage, After(stage, hold, before), step)
    ensures After(stage, hold, before + [step]) == Holds(stage, After(stage, hold, before), step)
  {
    hide Yields, Holds;
    assert (before + [step])[..|before|] == before;
  }

  // The loops.

  /** A reader that refused has seen all it will. */
  lemma Settled(out: seq<BlockStep>, whole: seq<BlockStep>, patience: Patience)
    requires Refused(out, patience) && out <= whole
    ensures Seen(whole, patience) == Seen(out, patience)
  {
    assert whole == out + whole[|out|..];
    SeenStops(out, whole[|out|..], patience);
  }

  lemma {:induction false} OutGrows(stage: Stage, steps: seq<BlockStep>, n: nat)
    requires n <= |steps|
    ensures Out(stage, NOTHING_HELD, steps[..n]) <= Out(stage, NOTHING_HELD, steps)
    decreases |steps|
  {
    hide Yields, After;
    if n < |steps| {
      var before := steps[..|steps| - 1];
      OutGrows(stage, before, n);
      assert before[..n] == steps[..n];
    } else {
      assert steps[..n] == steps;
    }
  }

  lemma StoppedAt(stage: Stage, steps: seq<BlockStep>, n: nat, seen: seq<BlockStep>, patience: Patience)
    requires n <= |steps| && Refused(seen, patience)
    requires seen <= Out(stage, NOTHING_HELD, steps[..n]) && seen == Seen(seen, patience)
    ensures seen == Seen(Whole(stage, steps), patience)
  {
    hide Out, After, Finally, Seen, Refused;
    OutGrows(stage, steps, n);
    Settled(seen, Whole(stage, steps), patience);
  }

  lemma NextStep(stage: Stage, steps: seq<BlockStep>, i: nat)
    requires i < |steps|
    ensures Out(stage, NOTHING_HELD, steps[..i + 1]) ==
              Out(stage, NOTHING_HELD, steps[..i]) + Yields(stage, After(stage, NOTHING_HELD, steps[..i]), steps[i])
    ensures After(stage, NOTHING_HELD, steps[..i + 1])
            == Holds(stage, After(stage, NOTHING_HELD, steps[..i]), steps[i])
  {
    hide Yields, Holds;
    assert steps[..i + 1] == steps[..i] + [steps[i]];
    OutExtend(stage, NOTHING_HELD, steps[..i], steps[i]);
  }

  /** One step more after steps not refused is always seen. */
  lemma OneMore(before: seq<BlockStep>, more: seq<BlockStep>, patience: Patience)
    requires !Refused(before, patience) && |more| <= 1
    ensures Seen(before + more, patience) == before + more
  {}

  lemma Started(stage: Stage, steps: seq<BlockStep>, patience: Patience)
    ensures Out(stage, NOTHING_HELD, steps[..0]) == [] && After(stage, NOTHING_HELD, steps[..0]) == NOTHING_HELD
    ensures !Refused<BlockStep>([], patience)
  {}

  /** The three filters: an error always passes, a block only if it is wanted. */
  method Filter(stage: Stage, steps: seq<BlockStep>, patience: Patience) returns (seen: seq<BlockStep>)
    requires stage.SkipBlocks? || stage.OnlyBlocks? || stage.OnlyAgent?
    ensures seen == Seen(Whole(stage, steps), patience)
  {
    hide Out, After, Keeps, Refused, Seen;
    seen := [];
    var i := 0;
    Started(stage, steps, patience);
    while i < |steps|
      invariant 0 <= i <= |steps|
      invariant seen == Out(stage, NOTHING_HELD, steps[..i]) && !Refused(seen, patience)
    {
      NextStep(stage, steps, i);
      var step := steps[i];
      i := i + 1;
      if step.Item? && !Keeps(stage, step.item) {
        continue;
      }
      OneMore(seen, [step], patience);
      seen := seen + [step];
      if Refused(seen, patience) {
        StoppedAt(stage, steps, i, seen, patience);
        return;
      }
    }
    assert steps[..i] == steps;
    OneMore(seen, [], patience);
  }

  /** An end is held back until something follows it, or nothing does. */
  method SkipIntermediateEndsLoop(steps: seq<BlockStep>, patience: Patience) returns (seen: seq<BlockStep>)
    ensures seen == Seen(Whole(SkipIntermediateEnds, steps), patience)
  {
    hide Out, After, Refused, Seen;
    var held: Option<Block> := None;
    seen := [];
    var i := 0;
    Started(SkipIntermediateEnds, steps, patience);
    while i < |steps|
      invariant 0 <= i <= |steps|
      invariant seen == Out(SkipIntermediateEnds, NOTHING_HELD, steps[..i]) && !Refused(seen, patience)
      invariant held == After(SkipIntermediateEnds, NOTHING_HELD, steps[..i]).held
    {
      NextStep(SkipIntermediateEnds, steps, i);
      var step := steps[i];
      i := i + 1;
      if step.Item? && step.item.ResponseEndBlock? {
        held := Some(step.item);
        continue;
      }
      if step.Item? {
        held := None;
      }
      OneMore(seen, [step], patience);
      seen := seen + [step];
      if Refused(seen, patience) {
        StoppedAt(SkipIntermediateEnds, steps, i, seen, patience);
        return;
      }
    }
    assert steps[..i] == steps;
    OneMore(seen, [], patience);
    if held.Some? {
      OneMore(seen, [Item(held.value)], patience);
      seen := seen + [Item(held.value)];
    }
  }

  /** Text sections are held back and joined; an end, or the end of the sequence, reports them. */
  method MergeTextLoop(steps: seq<BlockStep>, patience: Patience) returns (seen: seq<BlockStep>)
    ensures seen == Seen(Whole(MergeText, steps), patience)
  {
    hide Out, After, Refused, Seen, HasFence;
    var accumulated, ctx := "", NO_CONTEXT;
    seen := [];
    var i := 0;
    Started(MergeText, steps, patience);
    while i < |steps|
      invariant 0 <= i <= |steps|
      invariant seen == Out(MergeText, NOTHING_HELD, steps[..i]) && !Refused(seen, patience)
      invariant accumulated == After(MergeText, NOTHING_HELD, steps[..i]).accumulated
      invariant ctx == After(MergeText, NOTHING_HELD, steps[..i]).ctx
    {
      NextStep(MergeText, steps, i);
      var step := steps[i];
      i := i + 1;
      ghost var before := seen;
      if step.Item? && step.item.TextDone? {
        accumulated := accumulated + step.item.fullText;
        ctx := step.item.ctx;
        continue;
      }
      if step.Item? && step.item.ResponseEndBlock? && |accumulated| != 0 {
        OneMore(seen, [Item(TextDoneOf(step.item.ctx, accumulated))], patience);
        seen := seen + [Item(TextDoneOf(step.item.ctx, accumulated))];
        accumulated := "";
        if Refused(seen, patience) {
          StoppedAt(MergeText, steps, i, seen, patience);
          return;
        }
      }
      OneMore(seen, [step], patience);
      seen := seen + [step];
      if Refused(seen, patience) {
        StoppedAt(MergeText, steps, i, seen, patience);
        return;
      }
    }
    assert steps[..i] == steps;
    OneMore(seen, [], patience);
    if |accumulated| != 0 {
      OneMore(seen, [Item(TextDoneOf(ctx, accumulated))], patience);
      seen := seen + [Item(TextDoneOf(ctx, accumulated))];
    }
  }

  // Any composition, pushed step by step.

  lemma {:induction false} OutAppend(stage: Stage, hold: Hold, a: seq<BlockStep>, b: seq<BlockStep>)
    ensures Out(stage, hold, a + b) == Out(stage, hold, a) + Out(stage, After(stage, hold, a), b)
    ensures After(stage, hold, a + b) == After(stage, After(stage, hold, a), b)
  {
    hide Yields, Holds;
    if b == [] {
      assert a + b == a;
    } else {
      var n := |b| - 1;
      assert (a + b)[..|a + b| - 1] == a + b[..n];
      OutAppend(stage, hold, a, b[..n]);
      var mid := After(stage, hold, a);
      Regroup(Out(stage, hold, a), Out(stage, mid, b[..n]), Yields(stage, After(stage, mid, b[..n]), b[n]));
    }
  }

  function PipeOut(stages: seq<Stage>, holds: seq<Hold>, steps: seq<BlockStep>): seq<BlockStep>
    requires |stages| == |holds|
  {
    if stages == [] then steps else PipeOut(stages[1..], holds[1..], Out(stages[0], holds[0], steps))
  }

  function PipeAfter(stages: seq<Stage>, holds: seq<Hold>, steps: seq<BlockStep>): (after: seq<Hold>)
    requires |stages| == |holds|
    ensures |after| == |holds|
  {
    if stages == [] then [] else
      [After(stages[0], holds[0], steps)] + PipeAfter(stages[1..], holds[1..], Out(stages[0], holds[0], steps))
  }

  /** The first stage ends, and what it says last goes through the rest before they end in turn. */
  function PipeFinally(stages: seq<Stage>, holds: seq<Hold>): seq<BlockStep>
    requires |stages| == |holds|
  {
    if stages == [] then [] else
      var last := Finally(stages[0], holds[0]);
      PipeOut(stages[1..], holds[1..], last) + PipeFinally(stages[1..], PipeAfter(stages[1..], holds[1..], last))
  }

  lemma {:induction false} PipeAppend(stages: seq<Stage>, holds: seq<Hold>, a: seq<BlockStep>, b: seq<BlockStep>)
    requires |stages| == |holds|
    ensures PipeOut(stages, holds, a + b) ==
              PipeOut(stages, holds, a) + PipeOut(stages, PipeAfter(stages, holds, a), b)
    ensures PipeAfter(stages, holds, a + b) == PipeAfter(stages, PipeAfter(stages, holds, a), b)
  {
    hide Out, After;
    if stages != [] {
      OutAppend(stages[0], holds[0], a, b);
      var now := Out(stages[0], holds[0], a);
      var later := Out(stages[0], After(stages[0], holds[0], a), b);
      PipeAppend(stages[1..], holds[1..], now, later);
      assert PipeAfter(stages, holds, a)[1..] == PipeAfter(stages[1..], holds[1..], now);
    }
  }

  lemma PipeUnfolds(stages: seq<Stage>, holds: seq<Hold>, steps: seq<BlockStep>)
    requires |stages| == |holds| && stages != []
    ensures var out := Out(stages[0], holds[0], steps);
            && PipeOut(stages, holds, steps) == PipeOut(stages[1..], holds[1..], out)
            && PipeAfter(stages, holds, steps)[0] == After(stages[0], holds[0], steps)
            && PipeAfter(stages, holds, steps)[1..] == PipeAfter(stages[1..], holds[1..], out)
  {
    hide Out, After;
  }

  lemma EndUnfolds(stages: seq<Stage>, holds: seq<Hold>, steps: seq<BlockStep>)
    requires |stages| == |holds| && stages != []
    ensures var last := Finally(stages[0], holds[0]);
            PipeFinally(stages, holds) ==
              PipeOut(stages[1..], holds[1..], last) +
              PipeFinally(stages[1..], PipeAfter(stages[1..], holds[1..], last))
    ensures Piped(stages, steps) == Piped(stages[1..], Whole(stages[0], steps))
  {
    hide Finally, Whole, PipeOut, PipeAfter;
  }

  lemma PipeEmpty(stages: seq<Stage>, holds: seq<Hold>, steps: seq<BlockStep>)
    requires |stages| == |holds| && stages == []
    ensures PipeOut(stages, holds, steps) + PipeFinally(stages, PipeAfter(stages, holds, steps)) == Piped(stages, steps)
  {
    assert steps + [] == steps;
  }

  /** Stage by stage or step by step, a pipe says the same. */
  lemma {:induction false} PipeIsPiped(stages: seq<Stage>, holds: seq<Hold>, steps: seq<BlockStep>)
    requires |stages| == |holds| && forall i :: 0 <= i < |holds| ==> holds[i] == NOTHING_HELD
    ensures PipeOut(stages, holds, steps) + PipeFinally(stages, PipeAfter(stages, holds, steps)) == Piped(stages, steps)
  {
    hide Out, After, Finally, PipeOut, PipeAfter, PipeFinally, Piped;
    if stages == [] {
      PipeEmpty(stages, holds, steps);
    } else {
      var rest, idle, after := stages[1..], holds[1..], PipeAfter(stages, holds, steps);
      var out := Out(stages[0], NOTHING_HELD, steps);
      var last := Finally(stages[0], After(stages[0], NOTHING_HELD, steps));
      PipeUnfolds(stages, holds, steps);
      EndUnfolds(stages, after, steps);
      PipeAppend(rest, idle, out, last);
      PipeIsPiped(rest, idle, out + last);
      Regroup(PipeOut(rest, idle, out), PipeOut(rest, after[1..], last),
              PipeFinally(rest, PipeAfter(rest, after[1..], last)));
    }
  }

  lemma OneStep(stage: Stage, hold: Hold, step: BlockStep)
    ensures Out(stage, hold, [step]) == Yields(stage, hold, step)
    ensures After(stage, hold, [step]) == Holds(stage, hold, step)
  {
    hide Yields, Holds;
    assert [step][..0] == [];
  }

  // A pipe while it runs: what each stage holds, and what the reader has seen.

  datatype Run = Run(holds: seq<Hold>, seen: seq<BlockStep>)

  /** Running steps into stage k leaves the stages before it alone; ok is the last yield's answer. */
  ghost predicate Ran(stages: seq<Stage>, patience: Patience, k: nat, was: Run, now: Run,
                      steps: seq<BlockStep>, ok: bool)
  {
    && |now.holds| == |stages| == |was.holds| && k <= |stages|
    && now.holds[..k] == was.holds[..k]
    && var whole := was.seen + PipeOut(stages[k..], was.holds[k..], steps);
       if ok then
         && now.seen == whole && !Refused(whole, patience)
         && now.holds[k..] == PipeAfter(stages[k..], was.holds[k..], steps)
       else now.seen == Seen(whole, patience) && Refused(whole, patience)
  }

  lemma {:induction false} NothingIn(stages: seq<Stage>, holds: seq<Hold>)
    requires |stages| == |holds|
    ensures PipeOut(stages, holds, []) == [] && PipeAfter(stages, holds, []) == holds
  {
    if stages != [] {
      NothingIn(stages[1..], holds[1..]);
      assert [holds[0]] + holds[1..] == holds;
    }
  }

  lemma RanNothing(stages: seq<Stage>, patience: Patience, k: nat, was: Run)
    requires |was.holds| == |stages| && k <= |stages| && !Refused(was.seen, patience)
    ensures Ran(stages, patience, k, was, was, [], true)
  {
    NothingIn(stages[k..], was.holds[k..]);
    assert was.seen + [] == was.seen;
  }

  lemma RanOn(stages: seq<Stage>, patience: Patience, k: nat, was: Run, mid: Run, now: Run,
              a: seq<BlockStep>, b: seq<BlockStep>, ok: bool)
    requires Ran(stages, patience, k, was, mid, a, true) && Ran(stages, patience, k, mid, now, b, ok)
    ensures Ran(stages, patience, k, was, now, a + b, ok)
  {
    hide PipeOut, PipeAfter, Refused, Seen;
    PipeAppend(stages[k..], was.holds[k..], a, b);
    var first := PipeOut(stages[k..], was.holds[k..], a);
    var second := PipeOut(stages[k..], mid.holds[k..], b);
    assert was.seen + (first + second) == was.seen + first + second;
  }

  lemma RanStopped(stages: seq<Stage>, patience: Patience, k: nat, was: Run, now: Run,
                   a: seq<BlockStep>, b: seq<BlockStep>)
    requires Ran(stages, patience, k, was, now, a, false)
    ensures Ran(stages, patience, k, was, now, a + b, false)
  {
    hide PipeOut, PipeAfter, Refused, Seen;
    PipeAppend(stages[k..], was.holds[k..], a, b);
    var first := PipeOut(stages[k..], was.holds[k..], a);
    var second := PipeOut(stages[k..], PipeAfter(stages[k..], was.holds[k..], a), b);
    assert was.seen + (first + second) == was.seen + first + second;
    SeenStops(was.seen + first, second, patience);
  }

  /** One step at stage k is what that stage makes of it, run into the next. */
  lemma RanDown(stages: seq<Stage>, patience: Patience, k: nat, was: Run, now: Run, step: BlockStep, ok: bool)
    requires k < |stages| == |was.holds|
    requires Ran(stages, patience, k + 1,
                 was.(holds := was.holds[k := Holds(stages[k], was.holds[k], step)]), now,
                 Yields(stages[k], was.holds[k], step), ok)
    ensures Ran(stages, patience, k, was, now, [step], ok)
  {
    hide Yields, Holds, Out, After, Refused, Seen;
    var stage, hold := stages[k], was.holds[k];
    OneStep(stage, hold, step);
    var mid := was.holds[k := Holds(stage, hold, step)];
    assert stages[k..][1..] == stages[k + 1..] && was.holds[k..][1..] == was.holds[k + 1..] == mid[k + 1..];
    assert now.holds[..k] == now.holds[..k + 1][..k] == mid[..k + 1][..k] == was.holds[..k];
    assert now.holds[k] == now.holds[..k + 1][k] == mid[k];
    assert now.holds[k..] == [now.holds[k]] + now.holds[k + 1..];
  }

  /**
   A running pipe. The body of each transform's loop is what the stage before it yields into, so
   one step runs down the stages depth first, and a refusal runs back up through all of them.
   */
  class Pipe {
    const stages: seq<Stage>
    const patience: Patience
    var holds: seq<Hold>
    var seen: seq<BlockStep>

    ghost predicate Valid()
      reads this
    {
      |holds| == |stages| && !Refused(seen, patience)
    }

    ghost function Now(): Run
      reads this
    {
      Run(holds, seen)
    }

    constructor (stages: seq<Stage>, patience: Patience)
      ensures this.stages == stages && this.patience == patience
      ensures Valid() && seen == [] && forall i :: 0 <= i < |holds| ==> holds[i] == NOTHING_HELD
    {
      this.stages, this.patience := stages, patience;
      holds := seq(|stages|, i => NOTHING_HELD);
      seen := [];
    }

    method Push(k: nat, step: BlockStep) returns (ok: bool)
      requires Valid() && k <= |stages|
      modifies this
      ensures Ran(stages, patience, k, old(Now()), Now(), [step], ok)
      decreases |stages| - k, 0
    {
      hide Yields, Holds;
      if k == |stages| {
        seen := seen + [step];
        return !Refused(seen, patience);
      }
      var out := Yields(stages[k], holds[k], step);
      holds := holds[k := Holds(stages[k], holds[k], step)];
      ghost var taken;
      ok, taken := PushAll(k + 1, out);
      hide Ran;
      RanDown(stages, patience, k, old(Now()), Now(), step, ok);
    }

    /** Takes the steps up to the one whose yields are refused, and no more. */
    method PushAll(k: nat, steps: seq<BlockStep>) returns (ok: bool, ghost taken: nat)
      requires Valid() && k <= |stages|
      modifies this
      ensures Ran(stages, patience, k, old(Now()), Now(), steps, ok)
      ensures ok ==> Valid() && taken == |steps|
      ensures !ok ==>
                && 0 < taken <= |steps|
                && Refused(old(seen) + PipeOut(stages[k..], old(holds)[k..], steps[..taken]), patience)
                && !Refused(old(seen) + PipeOut(stages[k..], old(holds)[k..], steps[..taken - 1]), patience)
      decreases |stages| - k, 1
    {
      hide PipeOut, PipeAfter;
      taken := 0;
      var i := 0;
      RanNothing(stages, patience, k, Now());
      assert steps[..0] == [];
      while i < |steps|
        invariant 0 <= i <= |steps|
        invariant Ran(stages, patience, k, old(Now()), Now(), steps[..i], true)
      {
        ghost var mid := Now();
        ok := Push(k, steps[i]);
        RanOn(stages, patience, k, old(Now()), mid, Now(), steps[..i], [steps[i]], ok);
        assert steps[..i + 1] == steps[..i] + [steps[i]];
        i, taken := i + 1, i + 1;
        if !ok {
          RanStopped(stages, patience, k, old(Now()), Now(), steps[..i], steps[i..]);
          assert steps == steps[..i] + steps[i..];
          return;
        }
      }
      assert steps[..i] == steps;
      ok, taken := true, i;
    }

    /** The sequence has ended: each stage says what it still holds, first stage first. */
    method Finish(k: nat) returns (ok: bool)
      requires Valid() && k <= |stages|
      modifies this
      ensures seen == Seen(old(seen) + PipeFinally(stages[k..], old(holds)[k..]), patience)
      decreases |stages| - k
    {
      hide Finally, PipeOut, PipeAfter;
      if k == |stages| {
        assert seen + [] == seen;
        return true;
      }
      ghost var rest, idle, last := stages[k + 1..], holds[k + 1..], Finally(stages[k], holds[k]);
      assert stages[k..][1..] == rest && holds[k..][1..] == idle;
      ghost var now := PipeOut(rest, idle, last);
      ghost var later := PipeFinally(rest, PipeAfter(rest, idle, last));
      assert old(seen) + (now + later) == old(seen) + now + later;
      ghost var taken;
      ok, taken := PushAll(k + 1, Finally(stages[k], holds[k]));
      if !ok {
        SeenStops(old(seen) + now, later, patience);
        return;
      }
      ok := Finish(k + 1);
    }
  }

  lemma SaidGrows(stages: seq<Stage>, holds: seq<Hold>, steps: seq<BlockStep>, n: nat)
    requires |stages| == |holds| && n <= |steps|
    ensures PipeOut(stages, holds, steps[..n]) <= PipeOut(stages, holds, steps)
  {
    hide PipeOut, PipeAfter;
    assert steps == steps[..n] + steps[n..];
    PipeAppend(stages, holds, steps[..n], steps[n..]);
  }

  function Unheld(stages: seq<Stage>): (holds: seq<Hold>)
    ensures |holds| == |stages| && forall i :: 0 <= i < |holds| ==> holds[i] == NOTHING_HELD
  {
    seq(|stages|, i => NOTHING_HELD)
  }

  /** What a pipe has said by the time it has taken some steps and not ended. */
  function SaidBy(stages: seq<Stage>, steps: seq<BlockStep>): seq<BlockStep> {
    PipeOut(stages, Unheld(stages), steps)
  }

  /**
   However many stages, and wherever the reader stops, it sees a prefix of what they say together;
   and of the sequence, the pipe takes what leads up to the refusal and no more.
   */
  method ReadPiped(stages: seq<Stage>, steps: seq<BlockStep>, patience: Patience)
    returns (seen: seq<BlockStep>, ghost taken: nat)
    ensures seen == Seen(Piped(stages, steps), patience)
    ensures taken <= |steps| && (taken < |steps| ==> Refused(SaidBy(stages, steps[..taken]), patience))
    ensures taken > 0 ==> !Refused(SaidBy(stages, steps[..taken - 1]), patience)
  {
    hide Piped, PipeOut, PipeAfter, PipeFinally;
    var pipe := new Pipe(stages, patience);
    ghost var idle := pipe.holds;
    PipeIsPiped(stages, idle, steps);
    assert stages[0..] == stages && idle[0..] == idle == Unheld(stages);
    var ok;
    ok, taken := pipe.PushAll(0, steps);
    assert forall n :: 0 <= n <= |steps| ==> [] + PipeOut(stages, idle, steps[..n]) == PipeOut(stages, idle, steps[..n]);
    ghost var now, later := PipeOut(stages, idle, steps), PipeFinally(stages, PipeAfter(stages, idle, steps));
    assert [] + now == now;
    if ok {
      if taken > 0 {
        SaidGrows(stages, idle, steps, taken - 1);
      }
      assert pipe.holds[0..] == pipe.holds;
      ok := pipe.Finish(0);
    } else {
      SeenStops(now, later, patience);
    }
    seen := pipe.seen;
  }
}
