/** Folding one turn into an answer and its files (query.go), whole or streamed. */
module Query {
  import opened Text
  import opened Reading
  import opened Events
  import opened Transforms
  import opened TransformMeaning
  import Fold
  import FoldText

  function FilesOf(steps: seq<BlockStep>): seq<Block> {
    if steps == [] then [] else
      var last := steps[|steps| - 1];
      FilesOf(steps[..|steps| - 1]) + if last.Item? && last.item.FileBlock? then [last.item] else []
  }

  /** Where a sequence first fails; its length if it does not. */
  function FirstFault(steps: seq<BlockStep>): (i: nat)
    ensures i <= |steps| && (i < |steps| ==> steps[i].Fault?)
    ensures forall k :: 0 <= k < i ==> steps[k].Item?
  {
    if steps == [] then 0 else
      var before := steps[..|steps| - 1];
      var i := FirstFault(before);
      if i < |before| then i else if steps[|before|].Fault? then |before| else |steps|
  }

  lemma {:induction false} FilesAppend(a: seq<BlockStep>, b: seq<BlockStep>)
    ensures FilesOf(a + b) == FilesOf(a) + FilesOf(b)
  {
    if b == [] {
      assert a + b == a;
    } else {
      var n := |b| - 1;
      assert (a + b)[..|a + b| - 1] == a + b[..n];
      FilesAppend(a, b[..n]);
      Regroup(FilesOf(a), FilesOf(b[..n]), if b[n].Item? && b[n].item.FileBlock? then [b[n].item] else []);
    }
  }

  lemma OneStepsFiles(step: BlockStep)
    ensures FilesOf([step]) == if step.Item? && step.item.FileBlock? then [step.item] else []
    ensures FilesOf([]) == []
  {
    assert [step][..0] == [];
  }

  lemma {:induction false} FilesArePlain(steps: seq<BlockStep>)
    ensures FilesOf(Pick(Plain, steps)) == FilesOf(steps)
  {
    if steps == [] {
      assert Pick(Plain, steps) == steps;
    } else {
      hide Pick, FilesOf;
      var before, last := steps[..|steps| - 1], steps[|steps| - 1];
      FilesArePlain(before);
      assert steps == before + [last];
      PickAppend(Plain, before, [last]);
      PickOne(Plain, last);
      OneStepsFiles(last);
      FilesAppend(before, [last]);
      FilesAppend(Pick(Plain, before), if Plain(last) then [last] else []);
    }
  }

  /** What the fold appends to the plain blocks: the answer and the end. */
  function Tail(steps: seq<BlockStep>): seq<BlockStep> {
    var end := FinalEnd(steps);
    var ctx := if end != [] then end[0].item.ctx else DoneContext(steps);
    Merged(ctx, Join(DoneTexts(steps))) + end
  }

  lemma TailSays(steps: seq<BlockStep>)
    ensures Folded(steps) == Pick(Plain, steps) + Tail(steps)
    ensures DoneTexts(Folded(steps)) == if Join(DoneTexts(steps)) == "" then [] else [Join(DoneTexts(steps))]
    ensures FilesOf(Tail(steps)) == [] && forall k :: 0 <= k < |Tail(steps)| ==> Tail(steps)[k].Item?
  {
    hide Pick, Join, DoneTexts, HasFence, FinalEnd, FilesOf, Merged;
    EndIsOne(steps);
    var end := FinalEnd(steps);
    var ctx := if end != [] then end[0].item.ctx else DoneContext(steps);
    var text := Merged(ctx, Join(DoneTexts(steps)));
    var plain := Pick(Plain, steps);
    assert plain + (text + end) == plain + text + end;
    PlainSaysNothing(steps);
    MergedSays(ctx, Join(DoneTexts(steps)));
    DoneTextsAppend(plain + text, end);
    DoneTextsAppend(plain, text);
    FilesAppend(text, end);
    FilelessText(ctx, Join(DoneTexts(steps)));
  }

  lemma EndIsOne(steps: seq<BlockStep>)
    ensures var end := FinalEnd(steps);
            DoneTexts(end) == [] && FilesOf(end) == [] && forall k :: 0 <= k < |end| ==> end[k].Item?
  {
    var end := FinalEnd(steps);
    if end != [] {
      assert end[..0] == [];
    }
  }

  lemma FilelessText(ctx: BlockContext, text: string)
    ensures FilesOf(Merged(ctx, text)) == [] && forall k :: 0 <= k < |Merged(ctx, text)| ==> Merged(ctx, text)[k].Item?
  {
    hide HasFence;
    var one := Merged(ctx, text);
    if one != [] {
      assert one[..0] == [];
    }
  }

  /**
   Meaning is preserved: the fold keeps the answer, the files and every other non-end block in
   order, and reports the answer at most once, last or just before the end.
   */
  lemma QueryPreservesMeaning(steps: seq<BlockStep>)
    ensures var q := Piped([SkipIntermediateEnds, MergeText], steps);
            && Join(DoneTexts(q)) == Join(DoneTexts(steps)) && FilesOf(q) == FilesOf(steps)
            && Pick(Plain, q) == Pick(Plain, steps) && Pick(IsEnd, q) == FinalEnd(steps)
            && |DoneTexts(q)| <= 1
            && (forall k :: 0 <= k < |q| && IsDone(q[k]) ==> k == |q| - 1 || (k == |q| - 2 && IsEnd(q[|q| - 1])))
  {
    hide Pick, Join, DoneTexts, HasFence, FinalEnd, Piped, FilesOf, Tail, Folded;
    QueryFolds(steps);
    TailSays(steps);
    TailIs(steps);
    FilesAppend(Pick(Plain, steps), Tail(steps));
    FilesArePlain(steps);
    PickAppend(Plain, Pick(Plain, steps), Tail(steps));
    PickAppend(IsEnd, Pick(Plain, steps), Tail(steps));
    PickAgain(Plain, Plain, Plain, steps);
    PickNone(IsEnd, Plain, steps);
    PickedOnly(Plain, steps);
    assert Pick(Plain, steps) + [] == Pick(Plain, steps) && FilesOf(steps) + [] == FilesOf(steps);
    JoinOne(Join(DoneTexts(steps)));
  }

  lemma TailIs(steps: seq<BlockStep>)
    ensures var tail := Tail(steps);
            && |tail| <= 2 && Pick(Plain, tail) == [] && Pick(IsEnd, tail) == FinalEnd(steps)
            && (forall k :: 0 <= k < |tail| && IsDone(tail[k]) ==>
                  k == |tail| - 1 || (k == |tail| - 2 && IsEnd(tail[|tail| - 1])))
  {
    hide Pick, Join, DoneTexts, HasFence, LastBlock;
    var end := FinalEnd(steps);
    var ctx := if end != [] then end[0].item.ctx else DoneContext(steps);
    var text := Merged(ctx, Join(DoneTexts(steps)));
    PickAppend(Plain, text, end);
    PickAppend(IsEnd, text, end);
    PickSmall(text);
    PickSmall(end);
  }

  lemma PickSmall(few: seq<BlockStep>)
    requires |few| <= 1
    ensures Pick(Plain, few) == if few != [] && Plain(few[0]) then few else []
    ensures Pick(IsEnd, few) == if few != [] && IsEnd(few[0]) then few else []
  {
    hide Pick;
    if few != [] {
      assert few == [few[0]];
      PickOne(Plain, few[0]);
      PickOne(IsEnd, few[0]);
    } else {
      PickNothing(Plain, few);
      PickNothing(IsEnd, few);
    }
  }

  /** An error stays where it was among the blocks that pass. */
  lemma FaultStays(steps: seq<BlockStep>)
    ensures var q, i := Folded(steps), FirstFault(steps);
            if i == |steps| then FirstFault(q) == |q|
            else
              && FirstFault(q) == |Pick(Plain, steps[..i])| < |q|
              && q[FirstFault(q)] == steps[i] && q[..FirstFault(q)] == Pick(Plain, steps[..i])
  {
    hide Pick, Join, DoneTexts, HasFence, FinalEnd, FilesOf, Tail, Folded, FirstFault;
    var q, i, plain, tail := Folded(steps), FirstFault(steps), Pick(Plain, steps), Tail(steps);
    TailSays(steps);
    if i == |steps| {
      Faultless(steps);
      FirstFaultIs(plain, [], tail);
      assert plain + [] + tail == q;
    } else {
      var before, fault, rest := Pick(Plain, steps[..i]), [steps[i]], steps[i + 1..];
      Faultless(steps[..i]);
      assert steps == steps[..i] + (fault + rest);
      PickAppend(Plain, steps[..i], fault + rest);
      PickAppend(Plain, fault, rest);
      PickOne(Plain, steps[i]);
      FirstFaultIs(before, fault, Pick(Plain, rest) + tail);
      assert before + fault + (Pick(Plain, rest) + tail) == q;
    }
  }

  lemma FirstFaultIs(before: seq<BlockStep>, fault: seq<BlockStep>, rest: seq<BlockStep>)
    requires (forall k :: 0 <= k < |before| ==> before[k].Item?) && |fault| <= 1
    requires if fault == [] then forall k :: 0 <= k < |rest| ==> rest[k].Item? else fault[0].Fault?
    ensures var q := before + fault + rest;
            && q[..|before|] == before && (fault != [] ==> q[|before|] == fault[0])
            && FirstFault(q) == if fault == [] then |q| else |before|
  {
    hide FirstFault;
    var q := before + fault + rest;
    assert forall k :: 0 <= k < |before| ==> q[k] == before[k];
    if fault == [] {
      assert forall k :: |before| <= k < |q| ==> q[k] == rest[k - |before|];
    }
  }

  lemma {:induction false} Faultless(steps: seq<BlockStep>)
    requires forall k :: 0 <= k < |steps| ==> steps[k].Item?
    ensures forall k :: 0 <= k < |Pick(Plain, steps)| ==> Pick(Plain, steps)[k].Item?
  {
    if steps != [] {
      Faultless(steps[..|steps| - 1]);
    }
  }

  lemma LastFile(steps: seq<BlockStep>, i: nat)
    requires i < |steps|
    ensures FilesOf(steps[..i + 1])
            == FilesOf(steps[..i]) + if steps[i].Item? && steps[i].item.FileBlock? then [steps[i].item] else []
    ensures DoneTexts(steps[..i + 1])
            == DoneTexts(steps[..i]) + if IsDone(steps[i]) then [steps[i].item.fullText] else []
  {
    assert steps[..i + 1][..i] == steps[..i];
  }

  /**
   Query: the whole answer and every file of a turn that did not fail; of one that did, the files
   that came before the failure, and no text however much had arrived. The turn is read up to its
   first failure and no further.
   */
  method Query(turn: seq<BlockStep>)
    returns (text: string, files: seq<Block>, failure: Option<string>, ghost taken: nat)
    ensures taken == if FirstFault(turn) == |turn| then |turn| else FirstFault(turn) + 1
    ensures var i := FirstFault(turn);
            && files == FilesOf(turn[..i])
            && if i == |turn| then failure == None && text == Join(DoneTexts(turn))
               else failure == Some(turn[i].fault) && text == ""
  {
    hide FilesOf, DoneTexts, Join, Piped, FirstFault, Folded, Pick;
    var patience := UntilFault(Piped([SkipIntermediateEnds, MergeText], turn));
    var blocks;
    blocks, taken := ReadPiped([SkipIntermediateEnds, MergeText], turn, patience);
    SeenToTheFault(Piped([SkipIntermediateEnds, MergeText], turn));
    TakenToTheFault(turn, taken);
    QueryFolds(turn);
    FaultStays(turn);
    FilesArePlain(turn[..FirstFault(turn)]);
    QueryPreservesMeaning(turn);
    assert turn[..|turn|] == turn;
    text, files, failure := "", [], None;
    var answer := "";
    NothingRead(blocks);
    for i := 0 to |blocks|
      invariant files == FilesOf(blocks[..i]) && answer == Join(DoneTexts(blocks[..i]))
      invariant forall k :: 0 <= k < i ==> blocks[k].Item?
      invariant failure == None && text == ""
    {
      if blocks[i].Fault? {
        assert i == |blocks| - 1;
        failure := Some(blocks[i].fault);
        return;
      }
      LastFile(blocks, i);
      assert DoneTexts(blocks[..i]) + [] == DoneTexts(blocks[..i]);
      var block := blocks[i].item;
      if block.TextDone? {
        JoinMore(DoneTexts(blocks[..i]), block.fullText);
        answer := answer + block.fullText;
      } else if block.FileBlock? {
        files := files + [block];
      }
    }
    assert blocks[..|blocks|] == blocks;
    text := answer;
  }

  /** A reader that breaks off at the first error it is given. */
  function UntilFault(steps: seq<BlockStep>): Patience {
    if FirstFault(steps) < |steps| then Some(FirstFault(steps)) else None
  }

  lemma SeenToTheFault(steps: seq<BlockStep>)
    ensures var k, seen := FirstFault(steps), Seen(steps, UntilFault(steps));
            if k == |steps| then seen == steps
            else |seen| == k + 1 && seen[..k] == steps[..k] && seen[k] == steps[k]
                 && forall j :: 0 <= j < k ==> seen[j].Item?
  {
    hide FirstFault;
  }

  /** Until it ends, the composition says the plain steps as they come. */
  lemma PlainSoFar(steps: seq<BlockStep>)
    ensures SaidBy([SkipIntermediateEnds, MergeText], steps) == Pick(Plain, steps)
  {
    hide Out, Pick;
    SkippedSoFar(steps);
    NothingMergedYet(steps);
    SaidByTwo(SkipIntermediateEnds, MergeText, steps);
  }

  lemma SaidByTwo(first: Stage, second: Stage, steps: seq<BlockStep>)
    ensures SaidBy([first, second], steps) == Out(second, NOTHING_HELD, Out(first, NOTHING_HELD, steps))
  {
    hide Out;
    var holds := Unheld([first, second]);
    assert [first, second][1..] == [second] && holds[1..] == Unheld([second]);
    assert [second][1..] == [] && Unheld([second])[1..] == [];
    assert PipeOut([second], Unheld([second]), Out(first, NOTHING_HELD, steps))
           == PipeOut([], [], Out(second, NOTHING_HELD, Out(first, NOTHING_HELD, steps)));
  }

  lemma TakenToTheFault(turn: seq<BlockStep>, taken: nat)
    requires taken <= |turn|
    requires var stages, patience := [SkipIntermediateEnds, MergeText],
                                     UntilFault(Piped([SkipIntermediateEnds, MergeText], turn));
             && (taken < |turn| ==> Refused(SaidBy(stages, turn[..taken]), patience))
             && (taken > 0 ==> !Refused(SaidBy(stages, turn[..taken - 1]), patience))
    ensures taken == if FirstFault(turn) == |turn| then |turn| else FirstFault(turn) + 1
  {
    hide Piped, SaidBy, Folded, Pick, FirstFault;
    var i := FirstFault(turn);
    QueryFolds(turn);
    FaultStays(turn);
    PlainSoFar(turn[..taken]);
    if i < |turn| {
      if taken <= i {
        PlainGrows(turn, taken, i);
      } else {
        PlainSoFar(turn[..taken - 1]);
        if taken > i + 1 {
          PlainGrows(turn, i + 1, taken - 1);
          PlainFault(turn, i);
        }
      }
    }
  }

  lemma {:induction false} PlainGrows(steps: seq<BlockStep>, m: nat, n: nat)
    requires m <= n <= |steps|
    ensures |Pick(Plain, steps[..m])| <= |Pick(Plain, steps[..n])|
  {
    hide Pick;
    assert steps[..n] == steps[..m] + steps[m..n];
    PickAppend(Plain, steps[..m], steps[m..n]);
  }

  lemma PlainFault(steps: seq<BlockStep>, i: nat)
    requires i < |steps| && steps[i].Fault?
    ensures |Pick(Plain, steps[..i + 1])| == |Pick(Plain, steps[..i])| + 1
  {
    hide Pick;
    assert steps[..i + 1] == steps[..i] + [steps[i]];
    PickAppend(Plain, steps[..i], [steps[i]]);
    PickOne(Plain, steps[i]);
  }

  lemma NothingRead(blocks: seq<BlockStep>)
    ensures FilesOf(blocks[..0]) == [] && Join(DoneTexts(blocks[..0])) == ""
  {}

  lemma JoinMore(texts: seq<string>, more: string)
    ensures Join(texts + [more]) == Join(texts) + more
  {
    assert (texts + [more])[..|texts|] == texts;
  }

  // Over a turn's events.

  lemma {:induction false} SameTexts(blocks: seq<Block>)
    ensures DoneTexts(Delivered(blocks)) == FoldText.Dones(blocks)
  {
    if blocks != [] {
      var n := |blocks| - 1;
      assert Delivered<Block, string>(blocks)[..n] == Delivered<Block, string>(blocks[..n]);
      SameTexts(blocks[..n]);
    }
  }

  /** The answer to a turn is what its message items state, or what its deltas add up to, joined. */
  lemma AnswerOfTurn(cfg: Fold.Config, events: seq<Event>)
    requires Fold.Usable(cfg)
    ensures Join(DoneTexts(Delivered(Fold.AllBlocks(cfg, events)))) ==
              Join(FoldText.Reports(events)) + if FoldText.TurnOver(events) then "" else FoldText.SectionText(events)
  {
    hide Fold.AllBlocks, FoldText.Reports, FoldText.SectionText, FoldText.TurnOver, Fold.Usable, FoldText.Unsaid;
    SameTexts(Fold.AllBlocks(cfg, events));
    FoldText.SalvageIsComplete(cfg, events);
    if FoldText.TurnOver(events) || FoldText.SectionText(events) == "" {
      assert FoldText.Reports(events) + [] == FoldText.Reports(events);
    } else {
      JoinMore(FoldText.Reports(events), FoldText.SectionText(events));
    }
  }

  /** The files the events report, in order. */
  function FilesReported(events: seq<Event>): seq<(string, Option<string>)> {
    if events == [] then [] else
      var e := events[|events| - 1];
      FilesReported(events[..|events| - 1]) + if e.OutputFileDone? then [(e.fileId, e.filename)] else []
  }

  function FileNames(blocks: seq<Block>): seq<(string, Option<string>)> {
    if blocks == [] then [] else
      var b := blocks[|blocks| - 1];
      FileNames(blocks[..|blocks| - 1]) + if b.FileBlock? then [(b.fileId, b.filename)] else []
  }

  lemma {:induction false} FileNamesAppend(a: seq<Block>, b: seq<Block>)
    ensures FileNames(a + b) == FileNames(a) + FileNames(b)
  {
    if b == [] {
      assert a + b == a;
    } else {
      var n := |b| - 1;
      assert (a + b)[..|a + b| - 1] == a + b[..n];
      FileNamesAppend(a, b[..n]);
      Regroup(FileNames(a), FileNames(b[..n]), if b[n].FileBlock? then [(b[n].fileId, b[n].filename)] else []);
    }
  }

  lemma {:induction false} NoFiles(blocks: seq<Block>)
    requires forall i :: 0 <= i < |blocks| ==> !blocks[i].FileBlock?
    ensures FileNames(blocks) == []
  {
    if blocks != [] {
      NoFiles(blocks[..|blocks| - 1]);
    }
  }

  lemma EventFiles(cfg: Fold.Config, s: Fold.FoldState, e: Event)
    ensures FileNames(Fold.Emit(cfg, s, e)) == if e.OutputFileDone? then [(e.fileId, e.filename)] else []
  {
    hide FileNames;
    if e.OutputFileDone? {
      hide Trim, HasFence;
      var one := Fold.Emit(cfg, s, e);
      assert one == [FileBlock(s.who.ctx, e.fileId, e.filename)];
      OneFile(one, e.fileId, e.filename);
    } else {
      OtherEventsHaveNoFiles(cfg, s, e);
      hide Fold.Emit;
      NoFiles(Fold.Emit(cfg, s, e));
    }
  }

  lemma OtherEventsHaveNoFiles(cfg: Fold.Config, s: Fold.FoldState, e: Event)
    requires !e.OutputFileDone?
    ensures var blocks := Fold.Emit(cfg, s, e); forall i :: 0 <= i < |blocks| ==> !blocks[i].FileBlock?
  {
    hide Fold.FlushText, Fold.Finished, Fold.CallOf, Fold.Known, Fold.NewCall, Fold.MadeLive, Trim, OutputText,
         HasFence;
  }

  lemma OneFile(one: seq<Block>, fileId: string, filename: Option<string>)
    requires |one| == 1 && one[0].FileBlock? && one[0].fileId == fileId && one[0].filename == filename
    ensures FileNames(one) == [(fileId, filename)]
  {
    assert one[..0] == [];
  }

  lemma {:induction false} FilesSoFar(cfg: Fold.Config, events: seq<Event>)
    ensures FileNames(Fold.BlocksAfter(cfg, events)) == FilesReported(events)
  {
    hide Fold.Emit, Fold.StateAfter, FileNames;
    if events == [] {
      NoFiles([]);
    } else {
      var before, e := events[..|events| - 1], events[|events| - 1];
      FilesSoFar(cfg, before);
      EventFiles(cfg, Fold.StateAfter(cfg, before), e);
      FileNamesAppend(Fold.BlocksAfter(cfg, before), Fold.Emit(cfg, Fold.StateAfter(cfg, before), e));
    }
  }

  /** The files of a turn are those its events report, by id and name and in order, and no others. */
  lemma FilesOfTurn(cfg: Fold.Config, events: seq<Event>)
    ensures FileNames(FilesOf(Delivered(Fold.AllBlocks(cfg, events)))) == FilesReported(events)
  {
    hide Fold.BlocksAfter, Fold.StateAfter, Fold.Salvage, FileNames;
    var s := Fold.StateAfter(cfg, events);
    FilesSoFar(cfg, events);
    SalvageHasNoFiles(s);
    NoFiles(Fold.Salvage(s));
    FileNamesAppend(Fold.BlocksAfter(cfg, events), Fold.Salvage(s));
    assert FilesReported(events) + [] == FilesReported(events);
    SameFiles(Fold.AllBlocks(cfg, events));
  }

  lemma SalvageHasNoFiles(s: Fold.FoldState)
    ensures forall i :: 0 <= i < |Fold.Salvage(s)| ==> !Fold.Salvage(s)[i].FileBlock?
  {
    hide Trim, HasFence;
  }

  lemma {:induction false} SameFiles(blocks: seq<Block>)
    ensures FileNames(FilesOf(Delivered(blocks))) == FileNames(blocks)
  {
    if blocks != [] {
      var n := |blocks| - 1;
      assert Delivered<Block, string>(blocks)[..n] == Delivered<Block, string>(blocks[..n]);
      SameFiles(blocks[..n]);
      var files := FilesOf(Delivered(blocks[..n]));
      if blocks[n].FileBlock? {
        assert (files + [blocks[n]])[..|files|] == files;
      } else {
        assert files + [] == files;
      }
    }
  }

  // The streamed form.

  const ALREADY_READ: Step<string, string> := Fault("the turn was already read")

  /** The answer as a live reader sees it: chunks, and errors in place. */
  function Chunks(steps: seq<BlockStep>): seq<Step<string, string>> {
    if steps == [] then [] else
      var last := steps[|steps| - 1];
      Chunks(steps[..|steps| - 1]) +
      if last.Fault? then [Fault(last.fault)] else if last.item.TextChunk? then [Item(last.item.text)] else []
  }

  lemma {:induction false} ChunksGrow(steps: seq<BlockStep>, n: nat)
    requires n <= |steps|
    ensures Chunks(steps[..n]) <= Chunks(steps)
    decreases |steps|
  {
    if n < |steps| {
      ChunksGrow(steps[..|steps| - 1], n);
      assert steps[..|steps| - 1][..n] == steps[..n];
    } else {
      assert steps[..n] == steps;
    }
  }

  lemma ChunksStep(steps: seq<BlockStep>, i: nat)
    requires i < |steps|
    ensures Chunks(steps[..i + 1]) == Chunks(steps[..i]) +
              if steps[i].Fault? then [Fault(steps[i].fault)]
              else if steps[i].item.TextChunk? then [Item(steps[i].item.text)] else []
  {
    assert steps[..i + 1][..i] == steps[..i];
  }

  lemma StoppedReading(steps: seq<BlockStep>, n: nat, patience: Patience)
    requires n <= |steps| && Refused(Chunks(steps[..n]), patience)
    ensures Seen(Chunks(steps), patience) == Seen(Chunks(steps[..n]), patience)
  {
    hide Chunks, Refused, Seen;
    ChunksGrow(steps, n);
    var some, all := Chunks(steps[..n]), Chunks(steps);
    assert all == some + all[|some|..];
    SeenStops(some, all[|some|..], patience);
  }

  lemma JustSeen(before: seq<Step<string, string>>, step: Step<string, string>, patience: Patience)
    requires !Refused(before, patience)
    ensures Seen(before, patience) == before && Seen(before + [step], patience) == before + [step]
  {}

  /** One turn's text, readable once: a second read would post the prompt again. */
  class QueryStream {
    var read: bool
    var files: seq<Block>

    constructor ()
      ensures !read && files == []
    {
      read, files := false, [];
    }

    method Claim() returns (claimed: bool)
      modifies `read
      ensures claimed == !old(read) && read
    {
      if read {
        return false;
      }
      read := true;
      return true;
    }

    /**
     turn is what the turn would yield if it were driven, and driven says whether it was. The first
     n steps of it were read: all of them, unless the reader refused a chunk or an error.
     */
    method Text(turn: seq<BlockStep>, patience: Patience)
      returns (seen: seq<Step<string, string>>, ghost driven: bool, ghost n: nat)
      modifies this
      ensures read && driven == !old(read) && n <= |turn|
      ensures !driven ==> seen == [ALREADY_READ] && files == old(files)
      ensures driven ==>
                && seen == Seen(Chunks(turn), patience)
                && files == old(files) + FilesOf(turn[..n])
                && (n == |turn| || Refused(seen, patience))
    {
      hide Chunks, FilesOf, Refused, Seen;
      seen, driven, n := [], false, 0;
      var claimed := Claim();
      if !claimed {
        seen := [ALREADY_READ];
        return;
      }
      driven := true;
      NothingStreamed(turn, patience);
      assert files == old(files) + [];
      var i := 0;
      while i < |turn|
        invariant 0 <= i <= |turn| && n == i && read
        invariant seen == Chunks(turn[..i]) && !Refused(seen, patience)
        invariant files == old(files) + FilesOf(turn[..i])
      {
        ChunksStep(turn, i);
        LastFile(turn, i);
        assert FilesOf(turn[..i]) + [] == FilesOf(turn[..i]) && Chunks(turn[..i]) + [] == Chunks(turn[..i]);
        var step := turn[i];
        i, n := i + 1, i + 1;
        if step.Fault? || step.item.TextChunk? {
          var one := if step.Fault? then Fault(step.fault) else Item(step.item.text);
          JustSeen(seen, one, patience);
          seen := seen + [one];
          if Refused(seen, patience) {
            StoppedReading(turn, i, patience);
            return;
          }
        } else if step.item.FileBlock? {
          assert old(files) + FilesOf(turn[..i - 1]) + [step.item]
                 == old(files) + (FilesOf(turn[..i - 1]) + [step.item]);
          files := files + [step.item];
        }
      }
      assert turn[..i] == turn;
      JustSeen(seen, ALREADY_READ, patience);
    }
  }

  lemma NothingStreamed(turn: seq<BlockStep>, patience: Patience)
    ensures Chunks(turn[..0]) == [] && FilesOf(turn[..0]) == [] && !Refused<Step<string, string>>([], patience)
  {}
}
