/**
 What the transforms mean: which blocks survive, in what order, and what becomes of the text.
 All of it holds with errors anywhere in the sequence.
 */
module TransformMeaning {
  import opened Text
  import opened Reading
  import opened Events
  import opened Transforms

  predicate IsEnd(step: BlockStep) { step.Item? && step.item.ResponseEndBlock? }

  predicate IsDone(step: BlockStep) { step.Item? && step.item.TextDone? }

  predicate NotEnd(step: BlockStep) { !IsEnd(step) }

  predicate NotDone(step: BlockStep) { !IsDone(step) }

  /** Neither an end nor a finished text. */
  predicate Plain(step: BlockStep) { !IsEnd(step) && !IsDone(step) }

  predicate IsFault(step: BlockStep) { step.Fault? }

  /** The steps a predicate selects, in order. */
  function Pick(wanted: BlockStep -> bool, steps: seq<BlockStep>): seq<BlockStep> {
    if steps == [] then [] else
      Pick(wanted, steps[..|steps| - 1]) + if wanted(steps[|steps| - 1]) then [steps[|steps| - 1]] else []
  }

  /** The finished texts, in order. */
  function DoneTexts(steps: seq<BlockStep>): seq<string> {
    if steps == [] then [] else
      var last := steps[|steps| - 1];
      DoneTexts(steps[..|steps| - 1]) + if IsDone(last) then [last.item.fullText] else []
  }

  /** The context of the last finished text. */
  function DoneContext(steps: seq<BlockStep>): BlockContext {
    if steps == [] then NO_CONTEXT else
      var last := steps[|steps| - 1];
      if IsDone(last) then last.item.ctx else DoneContext(steps[..|steps| - 1])
  }

  /** The last block, errors aside. */
  function LastBlock(steps: seq<BlockStep>): Option<Block> {
    if steps == [] then None else
      var last := steps[|steps| - 1];
      if last.Item? then Some(last.item) else LastBlock(steps[..|steps| - 1])
  }

  /** The end a sequence finishes on, if it finishes on one. */
  function FinalEnd(steps: seq<BlockStep>): seq<BlockStep> {
    var last := LastBlock(steps);
    if last.Some? && last.value.ResponseEndBlock? then [Item(last.value)] else []
  }

  lemma {:induction false} PickAppend(wanted: BlockStep -> bool, a: seq<BlockStep>, b: seq<BlockStep>)
    ensures Pick(wanted, a + b) == Pick(wanted, a) + Pick(wanted, b)
  {
    if b == [] {
      assert a + b == a;
    } else {
      var n := |b| - 1;
      assert (a + b)[..|a + b| - 1] == a + b[..n];
      PickAppend(wanted, a, b[..n]);
      Regroup(Pick(wanted, a), Pick(wanted, b[..n]), if wanted(b[n]) then [b[n]] else []);
    }
  }

  lemma PickOne(wanted: BlockStep -> bool, step: BlockStep)
    ensures Pick(wanted, [step]) == if wanted(step) then [step] else []
  {
    assert [step][..0] == [];
  }

  lemma PickNothing(wanted: BlockStep -> bool, none: seq<BlockStep>)
    requires none == []
    ensures Pick(wanted, none) == []
  {}

  lemma {:induction false} PickAgain(outer: BlockStep -> bool, inner: BlockStep -> bool, both: BlockStep -> bool,
                                     steps: seq<BlockStep>)
    requires forall s :: both(s) <==> outer(s) && inner(s)
    ensures Pick(outer, Pick(inner, steps)) == Pick(both, steps)
  {
    if steps != [] {
      var before, last := steps[..|steps| - 1], steps[|steps| - 1];
      PickAgain(outer, inner, both, before);
      PickAppend(outer, Pick(inner, before), [last]);
      PickOne(outer, last);
      assert Pick(inner, before) + [] == Pick(inner, before);
    }
  }

  lemma {:induction false} PickNone(outer: BlockStep -> bool, inner: BlockStep -> bool, steps: seq<BlockStep>)
    requires forall s :: inner(s) ==> !outer(s)
    ensures Pick(outer, Pick(inner, steps)) == []
  {
    if steps != [] {
      var before, last := steps[..|steps| - 1], steps[|steps| - 1];
      PickNone(outer, inner, before);
      PickAppend(outer, Pick(inner, before), [last]);
      PickOne(outer, last);
      assert Pick(inner, before) + [] == Pick(inner, before);
    }
  }

  lemma {:induction false} PickedOnly(wanted: BlockStep -> bool, steps: seq<BlockStep>)
    ensures forall k :: 0 <= k < |Pick(wanted, steps)| ==> wanted(Pick(wanted, steps)[k])
  {
    if steps != [] {
      PickedOnly(wanted, steps[..|steps| - 1]);
    }
  }

  // Errors.

  /** No transform drops an error, or moves one past another. */
  lemma {:induction false} FaultsPassStage(stage: Stage, steps: seq<BlockStep>)
    ensures Pick(IsFault, Out(stage, NOTHING_HELD, steps)) == Pick(IsFault, steps)
  {
    hide After, HasFence;
    if steps != [] {
      var before, last := steps[..|steps| - 1], steps[|steps| - 1];
      FaultsPassStage(stage, before);
      var more := Yields(stage, After(stage, NOTHING_HELD, before), last);
      PickAppend(IsFault, Out(stage, NOTHING_HELD, before), more);
      FaultsYielded(stage, After(stage, NOTHING_HELD, before), last);
    }
  }

  lemma FaultsYielded(stage: Stage, hold: Hold, step: BlockStep)
    ensures Pick(IsFault, Yields(stage, hold, step)) == if IsFault(step) then [step] else []
  {
    hide HasFence, AnyMatch, Pick, Merged;
    PickOne(IsFault, step);
    PickNothing(IsFault, []);
    if step.Item? {
      MergedIsNoFault(step.item.ctx, hold.accumulated);
      PickAppend(IsFault, Merged(step.item.ctx, hold.accumulated), [step]);
    }
  }

  lemma MergedIsNoFault(ctx: BlockContext, text: string)
    ensures Pick(IsFault, Merged(ctx, text)) == []
  {
    hide HasFence, Pick;
    PickNothing(IsFault, []);
    if text != "" {
      PickOne(IsFault, Item(TextDoneOf(ctx, text)));
    }
  }

  lemma FaultsAtLast(stage: Stage, hold: Hold)
    ensures Pick(IsFault, Finally(stage, hold)) == []
  {
    hide Merged, Pick;
    PickNothing(IsFault, []);
    MergedIsNoFault(hold.ctx, hold.accumulated);
    if hold.held.Some? {
      PickOne(IsFault, Item(hold.held.value));
    }
  }

  lemma {:induction false} FaultsPass(stages: seq<Stage>, steps: seq<BlockStep>)
    ensures Pick(IsFault, Piped(stages, steps)) == Pick(IsFault, steps)
  {
    hide Out, After, Finally, Pick;
    if stages != [] {
      var out, last := Out(stages[0], NOTHING_HELD, steps), Finally(stages[0], After(stages[0], NOTHING_HELD, steps));
      FaultsPassStage(stages[0], steps);
      FaultsAtLast(stages[0], After(stages[0], NOTHING_HELD, steps));
      PickAppend(IsFault, out, last);
      FaultsPass(stages[1..], out + last);
      assert Pick(IsFault, steps) + [] == Pick(IsFault, steps);
    }
  }

  // Filters.

  /** Skipping and keeping the same blocks share a sequence out between them; errors go to both. */
  lemma {:induction false} FiltersPartition(predicates: seq<Block -> bool>, steps: seq<BlockStep>)
    ensures multiset(Out(SkipBlocks(predicates), NOTHING_HELD, steps)) +
            multiset(Out(OnlyBlocks(predicates), NOTHING_HELD, steps))
            == multiset(steps) + multiset(Pick(IsFault, steps))
  {
    hide AnyMatch, After, Yields;
    if steps != [] {
      var before, last := steps[..|steps| - 1], steps[|steps| - 1];
      FiltersPartition(predicates, before);
      var skip, only := SkipBlocks(predicates), OnlyBlocks(predicates);
      var a := Yields(skip, After(skip, NOTHING_HELD, before), last);
      var b := Yields(only, After(only, NOTHING_HELD, before), last);
      OneFiltered(predicates, After(skip, NOTHING_HELD, before), After(only, NOTHING_HELD, before), last);
      assert steps == before + [last];
      Shared(Out(skip, NOTHING_HELD, before), a, Out(only, NOTHING_HELD, before), b, before, [last],
             Pick(IsFault, before), if IsFault(last) then [last] else []);
    }
  }

  lemma Shared<X>(x: seq<X>, a: seq<X>, y: seq<X>, b: seq<X>, before: seq<X>, last: seq<X>, f: seq<X>, g: seq<X>)
    requires multiset(x) + multiset(y) == multiset(before) + multiset(f)
    requires multiset(a) + multiset(b) == multiset(last) + multiset(g)
    ensures multiset(x + a) + multiset(y + b) == multiset(before + last) + multiset(f + g)
  {
    assert multiset(x + a) == multiset(x) + multiset(a) && multiset(y + b) == multiset(y) + multiset(b);
    assert multiset(before + last) == multiset(before) + multiset(last) && multiset(f + g) == multiset(f) + multiset(g);
    Exchange(multiset(x), multiset(a), multiset(y), multiset(b));
    Exchange(multiset(before), multiset(last), multiset(f), multiset(g));
  }

  lemma Exchange<X>(p: multiset<X>, q: multiset<X>, r: multiset<X>, s: multiset<X>)
    ensures (p + q) + (r + s) == (p + r) + (q + s)
  {}

  lemma OneFiltered(predicates: seq<Block -> bool>, a: Hold, b: Hold, step: BlockStep)
    ensures multiset(Yields(SkipBlocks(predicates), a, step)) + multiset(Yields(OnlyBlocks(predicates), b, step))
            == multiset([step]) + multiset(if IsFault(step) then [step] else [])
  {
    hide AnyMatch;
  }

  /** What a filter lets through, said of the block itself. */
  predicate Passes(stage: Stage, step: BlockStep) {
    step.Fault? ||
    match stage
    case SkipBlocks(drop) => forall i :: 0 <= i < |drop| ==> !drop[i](step.item)
    case OnlyBlocks(keep) => exists i :: 0 <= i < |keep| && keep[i](step.item)
    case OnlyAgent(agent) => agent != "" ==> step.item.ctx.agent == agent
    case _ => false
  }

  /** A filter yields every step that passes, in order, and no other. */
  lemma {:induction false} FilterSelects(stage: Stage, steps: seq<BlockStep>)
    requires stage.SkipBlocks? || stage.OnlyBlocks? || stage.OnlyAgent?
    ensures Whole(stage, steps) == Pick(step => Passes(stage, step), steps)
  {
    hide After;
    if steps != [] {
      FilterSelects(stage, steps[..|steps| - 1]);
    }
  }

  /** An agent that is not named filters nothing. */
  lemma {:induction false} NoAgentKeepsAll(steps: seq<BlockStep>)
    ensures Whole(OnlyAgent(""), steps) == steps
  {
    if steps != [] {
      NoAgentKeepsAll(steps[..|steps| - 1]);
      assert steps == steps[..|steps| - 1] + [steps[|steps| - 1]];
    }
  }

  // Skipping ends.

  /** Every step but the ends, in order, and then the end the sequence finishes on, if it does. */
  lemma SkippedEnds(steps: seq<BlockStep>)
    ensures Whole(SkipIntermediateEnds, steps) == Pick(NotEnd, steps) + FinalEnd(steps)
  {
    SkippedSoFar(steps);
  }

  lemma {:induction false} SkippedSoFar(steps: seq<BlockStep>)
    ensures Out(SkipIntermediateEnds, NOTHING_HELD, steps) == Pick(NotEnd, steps)
    ensures var held := After(SkipIntermediateEnds, NOTHING_HELD, steps).held;
            FinalEnd(steps) == if held.Some? then [Item(held.value)] else []
  {
    if steps != [] {
      SkippedSoFar(steps[..|steps| - 1]);
    }
  }

  /** An end comes out exactly when the last block, errors aside, is one; and then only that one. */
  lemma EndSurvives(steps: seq<BlockStep>)
    ensures Pick(IsEnd, Whole(SkipIntermediateEnds, steps)) == FinalEnd(steps)
  {
    SkippedEnds(steps);
    PickAppend(IsEnd, Pick(NotEnd, steps), FinalEnd(steps));
    PickNone(IsEnd, NotEnd, steps);
    if FinalEnd(steps) != [] {
      PickOne(IsEnd, FinalEnd(steps)[0]);
    }
  }

  /** The cost: a file reported after the only end leaves the sequence without one. */
  lemma LateBlockCostsTheEnd(end: Block, file: Block)
    requires end.ResponseEndBlock? && file.FileBlock?
    ensures Whole(SkipIntermediateEnds, [Item(end), Item(file)]) == [Item(file)]
  {
    var steps: seq<BlockStep> := [Item(end), Item(file)];
    var first: seq<BlockStep> := [Item(end)];
    SkippedEnds(steps);
    assert steps == first + [Item(file)] && first + [] == first;
    PickAppend(NotEnd, first, [Item(file)]);
    PickOne(NotEnd, Item(end));
    PickOne(NotEnd, Item(file));
  }

  lemma SkipIsIdempotent(steps: seq<BlockStep>)
    ensures Whole(SkipIntermediateEnds, Whole(SkipIntermediateEnds, steps)) == Whole(SkipIntermediateEnds, steps)
  {
    hide Whole, Pick, FinalEnd;
    SkippedEnds(steps);
    var kept, end := Pick(NotEnd, steps), FinalEnd(steps);
    SkippedEnds(kept + end);
    PickAgain(NotEnd, NotEnd, NotEnd, steps);
    PickAppend(NotEnd, kept, end);
    FinalEndIsOne(steps);
    if end != [] {
      PickOne(NotEnd, end[0]);
      FinalEndLast(kept, end);
      assert kept + [] == kept;
    } else {
      PickNothing(NotEnd, end);
      assert kept + end == kept;
      NoFinalEnd(steps);
    }
  }

  lemma FinalEndIsOne(steps: seq<BlockStep>)
    ensures FinalEnd(steps) == [] || (|FinalEnd(steps)| == 1 && IsEnd(FinalEnd(steps)[0]))
    ensures FinalEnd(steps) != [] ==> FinalEnd(steps) == [FinalEnd(steps)[0]]
  {
    hide LastBlock;
  }

  lemma FinalEndLast(kept: seq<BlockStep>, end: seq<BlockStep>)
    requires |end| == 1 && IsEnd(end[0])
    ensures FinalEnd(kept + end) == end
  {
    assert (kept + end)[..|kept + end| - 1] == kept && (kept + end)[|kept|] == end[0];
  }

  lemma {:induction false} NoFinalEnd(steps: seq<BlockStep>)
    ensures FinalEnd(Pick(NotEnd, steps)) == []
  {
    if steps != [] {
      var before := steps[..|steps| - 1];
      NoFinalEnd(before);
      assert (Pick(NotEnd, before) + [steps[|steps| - 1]])[..|Pick(NotEnd, before)|] == Pick(NotEnd, before);
      assert Pick(NotEnd, before) + [] == Pick(NotEnd, before);
    }
  }

  // Merging text.

  lemma {:induction false} DoneTextsAppend(a: seq<BlockStep>, b: seq<BlockStep>)
    ensures DoneTexts(a + b) == DoneTexts(a) + DoneTexts(b)
  {
    if b == [] {
      assert a + b == a;
    } else {
      var n := |b| - 1;
      assert (a + b)[..|a + b| - 1] == a + b[..n];
      DoneTextsAppend(a, b[..n]);
      Regroup(DoneTexts(a), DoneTexts(b[..n]), if IsDone(b[n]) then [b[n].item.fullText] else []);
    }
  }

  lemma MergedSays(ctx: BlockContext, text: string)
    ensures DoneTexts(Merged(ctx, text)) == (if text == "" then [] else [text])
    ensures Join(DoneTexts(Merged(ctx, text))) == text
    ensures Pick(NotDone, Merged(ctx, text)) == []
  {
    hide HasFence, DoneTexts, Join, Pick;
    if text == "" {
      NoneSay([]);
    } else {
      OneSays(Item(TextDoneOf(ctx, text)));
      PickOne(NotDone, Item(TextDoneOf(ctx, text)));
    }
  }

  lemma NoneSay(none: seq<BlockStep>)
    requires none == []
    ensures DoneTexts(none) == [] && Join(DoneTexts(none)) == "" && Pick(NotDone, none) == []
  {}

  lemma OneSays(step: BlockStep)
    ensures DoneTexts([step]) == (if IsDone(step) then [step.item.fullText] else [])
    ensures Join(DoneTexts([step])) == if IsDone(step) then step.item.fullText else ""
  {
    assert [step][..0] == [];
    if IsDone(step) {
      assert [step.item.fullText][..0] == [];
    }
  }

  /** Blocks that are not finished texts pass untouched; the text is moved, never lost. */
  lemma {:induction false} MergedSoFar(steps: seq<BlockStep>)
    ensures var out, hold := Out(MergeText, NOTHING_HELD, steps), After(MergeText, NOTHING_HELD, steps);
            && Pick(NotDone, out) == Pick(NotDone, steps)
            && Join(DoneTexts(out)) + hold.accumulated == Join(DoneTexts(steps))
            && (steps != [] && IsEnd(steps[|steps| - 1]) ==> hold.accumulated == "")
            && hold.ctx == DoneContext(steps)
  {
    hide HasFence, Out, After, Join, DoneTexts, Pick, Yields;
    if steps == [] {
      NothingMerged(steps);
    } else {
      var before, last := steps[..|steps| - 1], steps[|steps| - 1];
      assert steps == before + [last];
      MergedSoFar(before);
      OutExtend(MergeText, NOTHING_HELD, before, last);
      var out, hold := Out(MergeText, NOTHING_HELD, before), After(MergeText, NOTHING_HELD, before);
      var more := Yields(MergeText, hold, last);
      PickAppend(NotDone, before, [last]);
      PickOne(NotDone, last);
      PickAppend(NotDone, out, more);
      DoneTextsAppend(before, [last]);
      DoneTextsAppend(out, more);
      JoinAppend(DoneTexts(before), DoneTexts([last]));
      JoinAppend(DoneTexts(out), DoneTexts(more));
      MergeStep(hold, last);
      Carry(Join(DoneTexts(out)), Join(DoneTexts(more)), Holds(MergeText, hold, last).accumulated,
            hold.accumulated, Join(DoneTexts([last])));
    }
  }

  lemma Carry(out: string, more: string, kept: string, held: string, last: string)
    requires more + kept == held + last
    ensures (out + more) + kept == (out + held) + last
  {
    assert (out + more) + kept == out + (more + kept);
  }

  lemma NothingMerged(steps: seq<BlockStep>)
    requires steps == []
    ensures Out(MergeText, NOTHING_HELD, steps) == [] && After(MergeText, NOTHING_HELD, steps) == NOTHING_HELD
    ensures Join(DoneTexts(steps)) == "" && DoneContext(steps) == NO_CONTEXT
  {}

  lemma MergeStep(hold: Hold, step: BlockStep)
    ensures var more, now := Yields(MergeText, hold, step), Holds(MergeText, hold, step);
            && Pick(NotDone, more) == Pick(NotDone, [step])
            && Join(DoneTexts(more)) + now.accumulated == hold.accumulated + Join(DoneTexts([step]))
  {
    hide HasFence, Merged;
    OneSays(step);
    PickOne(NotDone, step);
    if IsEnd(step) {
      MergedSays(step.item.ctx, hold.accumulated);
      var text := Merged(step.item.ctx, hold.accumulated);
      PickAppend(NotDone, text, [step]);
      DoneTextsAppend(text, [step]);
      JoinAppend(DoneTexts(text), DoneTexts([step]));
    }
  }

  /** Merging moves text and nothing else: other blocks keep their order, the answer its words. */
  lemma MergeConserves(steps: seq<BlockStep>)
    ensures Pick(NotDone, Whole(MergeText, steps)) == Pick(NotDone, steps)
    ensures Join(DoneTexts(Whole(MergeText, steps))) == Join(DoneTexts(steps))
  {
    hide Out, After, Pick, DoneTexts, Join, Merged;
    var out, hold := Out(MergeText, NOTHING_HELD, steps), After(MergeText, NOTHING_HELD, steps);
    var last := Merged(hold.ctx, hold.accumulated);
    MergedSoFar(steps);
    MergedSays(hold.ctx, hold.accumulated);
    PickAppend(NotDone, out, last);
    DoneTextsAppend(out, last);
    JoinAppend(DoneTexts(out), DoneTexts(last));
    assert Pick(NotDone, steps) + [] == Pick(NotDone, steps);
  }

  /** By each end, everything said before it has been reported before it. */
  lemma ReportedByTheEnd(steps: seq<BlockStep>, end: BlockStep)
    requires IsEnd(end)
    ensures var out := Out(MergeText, NOTHING_HELD, steps + [end]);
            out[|out| - 1..] == [end] && Join(DoneTexts(out)) == Join(DoneTexts(steps))
  {
    hide Out, After, Pick, DoneTexts, Join, Merged;
    MergedSoFar(steps + [end]);
    OutExtend(MergeText, NOTHING_HELD, steps, end);
    DoneTextsAppend(steps, [end]);
    OneSays(end);
    assert DoneTexts(steps) + [] == DoneTexts(steps);
    assert Join(DoneTexts(steps)) + "" == Join(DoneTexts(steps));
  }

  /** What may follow a sequence in which no text is split or misplaced. */
  predicate Follows(before: seq<BlockStep>, step: BlockStep) {
    && (before != [] && IsDone(before[|before| - 1]) ==>
          IsEnd(step) && step.item.ctx == before[|before| - 1].item.ctx)
    && (IsDone(step) ==> step.item.fullText != "" && step.item == TextDoneOf(step.item.ctx, step.item.fullText))
  }

  /** Every finished text is non-empty and comes right before an end of its own context, or last. */
  predicate Tidy(steps: seq<BlockStep>) {
    steps == [] || (Tidy(steps[..|steps| - 1]) && Follows(steps[..|steps| - 1], steps[|steps| - 1]))
  }

  lemma TidyExtend(before: seq<BlockStep>, step: BlockStep)
    requires Tidy(before) && Follows(before, step)
    ensures Tidy(before + [step])
  {
    hide Follows;
    assert (before + [step])[..|before|] == before;
  }

  predicate EndsInText(steps: seq<BlockStep>) { steps != [] && IsDone(steps[|steps| - 1]) }

  lemma MergedTidy(before: seq<BlockStep>, ctx: BlockContext, text: string)
    requires Tidy(before) && !EndsInText(before)
    ensures Tidy(before + Merged(ctx, text))
    ensures text != "" ==> (before + Merged(ctx, text))[|before|] == Item(TextDoneOf(ctx, text))
  {
    hide HasFence;
    if text != "" {
      TidyExtend(before, Item(TextDoneOf(ctx, text)));
    } else {
      assert before + [] == before;
    }
  }

  lemma NothingIsTidy(steps: seq<BlockStep>)
    requires steps == []
    ensures Tidy(steps) && !EndsInText(steps)
  {}

  lemma {:induction false} OutIsTidy(steps: seq<BlockStep>)
    ensures Tidy(Out(MergeText, NOTHING_HELD, steps)) && !EndsInText(Out(MergeText, NOTHING_HELD, steps))
  {
    hide Out, After, Tidy, Yields, EndsInText;
    if steps == [] {
      NothingMerged(steps);
      NothingIsTidy(Out(MergeText, NOTHING_HELD, steps));
    } else {
      var before, last := steps[..|steps| - 1], steps[|steps| - 1];
      assert steps == before + [last];
      OutIsTidy(before);
      OutExtend(MergeText, NOTHING_HELD, before, last);
      OneTidy(Out(MergeText, NOTHING_HELD, before), After(MergeText, NOTHING_HELD, before), last);
    }
  }

  lemma OneTidy(out: seq<BlockStep>, hold: Hold, last: BlockStep)
    requires Tidy(out) && !EndsInText(out)
    ensures var now := out + Yields(MergeText, hold, last); Tidy(now) && !EndsInText(now)
  {
    hide HasFence, Tidy;
    if IsEnd(last) {
      var text := Merged(last.item.ctx, hold.accumulated);
      MergedTidy(out, last.item.ctx, hold.accumulated);
      TidyExtend(out + text, last);
      Regroup(out, text, [last]);
    } else if IsDone(last) {
      assert out + [] == out;
    } else {
      TidyExtend(out, last);
    }
  }

  /** At most one finished text per end, right before it; and one more if the sequence just stops. */
  lemma MergeIsTidy(steps: seq<BlockStep>)
    ensures Tidy(Whole(MergeText, steps))
  {
    hide Out, After, Tidy, Merged;
    OutIsTidy(steps);
    var hold := After(MergeText, NOTHING_HELD, steps);
    MergedTidy(Out(MergeText, NOTHING_HELD, steps), hold.ctx, hold.accumulated);
  }

  /** All of a sequence has come out again, but a finished text still waiting for its end. */
  predicate LeftAlone(steps: seq<BlockStep>, out: seq<BlockStep>, hold: Hold) {
    if EndsInText(steps) then
      && out == steps[..|steps| - 1]
      && hold.accumulated == steps[|steps| - 1].item.fullText && hold.ctx == steps[|steps| - 1].item.ctx
    else out == steps && hold.accumulated == ""
  }

  lemma {:induction false} TidyIsLeftAlone(steps: seq<BlockStep>)
    requires Tidy(steps)
    ensures LeftAlone(steps, Out(MergeText, NOTHING_HELD, steps), After(MergeText, NOTHING_HELD, steps))
  {
    hide HasFence, Out, After, Tidy, LeftAlone, Yields, Holds;
    if steps == [] {
      StartsAlone(steps);
    } else {
      var before, last := steps[..|steps| - 1], steps[|steps| - 1];
      assert steps == before + [last];
      TidyShrinks(steps);
      TidyIsLeftAlone(before);
      OutExtend(MergeText, NOTHING_HELD, before, last);
      OneLeftAlone(before, last, Out(MergeText, NOTHING_HELD, before), After(MergeText, NOTHING_HELD, before));
    }
  }

  lemma TidyShrinks(steps: seq<BlockStep>)
    requires Tidy(steps) && steps != []
    ensures Tidy(steps[..|steps| - 1]) && Follows(steps[..|steps| - 1], steps[|steps| - 1])
  {
    hide Follows;
  }

  lemma StartsAlone(steps: seq<BlockStep>)
    requires steps == []
    ensures LeftAlone(steps, Out(MergeText, NOTHING_HELD, steps), After(MergeText, NOTHING_HELD, steps))
  {}

  lemma OneLeftAlone(before: seq<BlockStep>, last: BlockStep, out: seq<BlockStep>, hold: Hold)
    requires LeftAlone(before, out, hold) && Tidy(before) && Follows(before, last)
    ensures LeftAlone(before + [last], out + Yields(MergeText, hold, last), Holds(MergeText, hold, last))
  {
    hide HasFence, Tidy;
    if EndsInText(before) {
      Reattached(before, last);
    } else if IsDone(last) {
      assert before + [] == before;
    }
  }

  /** A finished text and its end are given back as they came. */
  lemma Reattached(before: seq<BlockStep>, end: BlockStep)
    requires EndsInText(before) && Tidy(before) && Follows(before, end)
    ensures var n := |before| - 1;
            before[..n] + (Merged(end.item.ctx, before[n].item.fullText) + [end]) == before + [end]
  {
    hide HasFence;
    LastFollows(before);
  }

  /** Merging what is already merged changes nothing. */
  lemma MergeIsIdempotent(steps: seq<BlockStep>)
    ensures Whole(MergeText, Whole(MergeText, steps)) == Whole(MergeText, steps)
  {
    hide Out, After, Tidy, HasFence;
    MergeIsTidy(steps);
    var merged := Whole(MergeText, steps);
    TidyIsLeftAlone(merged);
    assert merged + [] == merged;
    if EndsInText(merged) {
      LastFollows(merged);
      assert merged == merged[..|merged| - 1] + [merged[|merged| - 1]];
    }
  }

  lemma LastFollows(steps: seq<BlockStep>)
    requires Tidy(steps) && EndsInText(steps)
    ensures var last := steps[|steps| - 1].item;
            last.fullText != "" && last == TextDoneOf(last.ctx, last.fullText)
  {
    hide HasFence;
  }

  // Both, as a query composes them.

  /** The steps that are neither ends nor finished texts, the whole answer, and the final end. */
  function Folded(steps: seq<BlockStep>): seq<BlockStep> {
    var end := FinalEnd(steps);
    var ctx := if end != [] then end[0].item.ctx else DoneContext(steps);
    Pick(Plain, steps) + Merged(ctx, Join(DoneTexts(steps))) + end
  }

  lemma {:induction false} EndsDoNotSpeak(steps: seq<BlockStep>)
    ensures DoneTexts(Pick(NotEnd, steps)) == DoneTexts(steps)
    ensures DoneContext(Pick(NotEnd, steps)) == DoneContext(steps)
  {
    if steps != [] {
      var before, last := steps[..|steps| - 1], steps[|steps| - 1];
      EndsDoNotSpeak(before);
      var kept := Pick(NotEnd, before);
      assert (kept + [last])[..|kept|] == kept;
      assert kept + [] == kept;
    }
  }

  /** While there is no end, text is only held back. */
  lemma {:induction false} NothingMergedYet(steps: seq<BlockStep>)
    ensures Out(MergeText, NOTHING_HELD, Pick(NotEnd, steps)) == Pick(Plain, steps)
  {
    hide After, HasFence;
    if steps != [] {
      var before, last := steps[..|steps| - 1], steps[|steps| - 1];
      NothingMergedYet(before);
      var kept := Pick(NotEnd, before);
      assert kept + [] == kept && Pick(Plain, before) + [] == Pick(Plain, before);
      if NotEnd(last) {
        OutExtend(MergeText, NOTHING_HELD, kept, last);
      }
    }
  }

  /** Skipping intermediate ends and then merging is exactly that fold. */
  lemma QueryFolds(steps: seq<BlockStep>)
    ensures Piped([SkipIntermediateEnds, MergeText], steps) == Folded(steps)
  {
    hide Out, After, Pick, HasFence, DoneTexts, DoneContext, Join, FinalEnd, Merged, Whole;
    var kept, end := Pick(NotEnd, steps), FinalEnd(steps);
    SkippedEnds(steps);
    MergeOnce(steps, kept, end);
    PipedTwice(SkipIntermediateEnds, MergeText, steps);
  }

  lemma PipedTwice(first: Stage, second: Stage, steps: seq<BlockStep>)
    ensures Piped([first, second], steps) == Whole(second, Whole(first, steps))
  {
    hide Whole;
    assert [first, second][1..] == [second];
    assert [second][1..] == [];
    assert Piped([second], Whole(first, steps)) == Piped([], Whole(second, Whole(first, steps)));
  }

  lemma MergeOnce(steps: seq<BlockStep>, kept: seq<BlockStep>, end: seq<BlockStep>)
    requires kept == Pick(NotEnd, steps) && end == FinalEnd(steps)
    ensures Whole(MergeText, kept + end) == Folded(steps)
  {
    hide Out, After, Pick, HasFence, DoneTexts, DoneContext, Join, LastBlock, Merged;
    EndsDoNotSpeak(steps);
    NothingMergedYet(steps);
    MergedSoFar(kept);
    var hold := After(MergeText, NOTHING_HELD, kept);
    NothingSaid(steps, hold.accumulated);
    if end != [] {
      OutExtend(MergeText, NOTHING_HELD, kept, end[0]);
      assert end == [end[0]];
      MergedNothing(hold.ctx);
      var text := Merged(end[0].item.ctx, hold.accumulated);
      assert Pick(Plain, steps) + (text + end) == Pick(Plain, steps) + text + end;
    } else {
      assert kept + end == kept;
    }
  }

  lemma MergedNothing(ctx: BlockContext)
    ensures Merged(ctx, "") == []
  {}

  lemma NothingSaid(steps: seq<BlockStep>, held: string)
    requires Join(DoneTexts(Pick(Plain, steps))) + held == Join(DoneTexts(steps))
    ensures held == Join(DoneTexts(steps))
  {
    PlainSaysNothing(steps);
    assert "" + held == held;
  }

  lemma {:induction false} PlainSaysNothing(steps: seq<BlockStep>)
    ensures DoneTexts(Pick(Plain, steps)) == []
  {
    if steps != [] {
      var before, last := steps[..|steps| - 1], steps[|steps| - 1];
      PlainSaysNothing(before);
      DoneTextsAppend(Pick(Plain, before), [last]);
      OneSays(last);
      assert Pick(Plain, before) + [] == Pick(Plain, before);
    }
  }
}
