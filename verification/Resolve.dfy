/** ResolveAgent: a picked name to an agent, reading the whole listing before saying no. */
module Resolve {
  import opened Text
  import opened Reading
  import opened Paging
  import opened Sanitize

  const MAX_NAMES_IN_ERROR: nat := 20
  const MAX_NAMES_SIZE: nat := 400
  const MAX_AGENT_NAME_RUNES: nat := 60

  datatype Agent = Agent(id: string, name: string)

  datatype Resolution =
    | Resolved(agent: Agent)
    | NotRegistered(names: seq<string>, truncated: bool)
    | ListingFailed(cause: End)
    | NameRequired

  type Listing = seq<Step<Agent, End>>

  /** The step settles the search: the agent wanted, or the listing's own failure. */
  predicate Settles(step: Step<Agent, End>, name: string) {
    step.Fault? || step.item.name == name
  }

  function Outcome(step: Step<Agent, End>): Resolution {
    if step.Fault? then ListingFailed(step.fault) else Resolved(step.item)
  }

  function TotalSize(names: seq<string>): nat {
    if names == [] then 0 else TotalSize(names[..|names| - 1]) + Size(names[|names| - 1])
  }

  /** The names the error would like to list. */
  function Rendered(listing: Listing): seq<string> {
    if listing == [] then [] else
      var last := listing[|listing| - 1];
      Rendered(listing[..|listing| - 1]) +
      if last.Item? then [Clean(last.item.name, MAX_AGENT_NAME_RUNES)] else []
  }

  /** The names the error does list: each in turn that leaves at most 20 names and 400 bytes of them. */
  function Picked(names: seq<string>): seq<string> {
    if names == [] then [] else
      var before, name := Picked(names[..|names| - 1]), names[|names| - 1];
      if |before| < MAX_NAMES_IN_ERROR && TotalSize(before) + Size(name) <= MAX_NAMES_SIZE then before + [name] else before
  }

  ghost predicate Subsequence(a: seq<string>, b: seq<string>) {
    a == [] ||
    (b != [] &&
     (Subsequence(a, b[..|b| - 1]) ||
      (a[|a| - 1] == b[|b| - 1] && Subsequence(a[..|a| - 1], b[..|b| - 1]))))
  }

  /**
   The names listed are some of those there are, in order and within both caps; and they are all of
   them exactly when all of them fit.
   */
  lemma {:induction false} PickedFits(names: seq<string>)
    ensures Subsequence(Picked(names), names) && |Picked(names)| <= 20 && TotalSize(Picked(names)) <= 400
    ensures |Picked(names)| <= |names| && TotalSize(Picked(names)) <= TotalSize(names)
    ensures Picked(names) == names <==> |names| <= 20 && TotalSize(names) <= 400
  {
    hide Size, Subsequence;
    if names == [] {
      NothingPicked(names);
    } else {
      var before, name := names[..|names| - 1], names[|names| - 1];
      PickedFits(before);
      assert names == before + [name];
      OneMoreKept(Picked(before), before, name);
      TotalOfOneMore(Picked(before), name);
    }
  }

  lemma NothingPicked(none: seq<string>)
    requires none == []
    ensures Subsequence(Picked(none), none) && TotalSize(Picked(none)) == 0
  {}

  lemma TotalOfOneMore(names: seq<string>, name: string)
    ensures TotalSize(names + [name]) == TotalSize(names) + Size(name)
  {
    assert (names + [name])[..|names|] == names;
  }

  /**
   The first settling step decides, and with none the whole listing was read. The names in the
   refusal are those of the listing that fit, flagged when not all do.
   */
  method ResolveAgent(listing: Listing, name: string) returns (r: Resolution, ghost read: nat)
    ensures name == "" <==> r == NameRequired
    ensures name != "" && (exists i :: 0 <= i < |listing| && Settles(listing[i], name)) ==>
              && 0 < read <= |listing|
              && Settles(listing[read - 1], name) && r == Outcome(listing[read - 1])
              && forall i :: 0 <= i < read - 1 ==> !Settles(listing[i], name)
    ensures name != "" && (forall i :: 0 <= i < |listing| ==> !Settles(listing[i], name)) ==>
              && read == |listing|
              && r.NotRegistered?
              && r.names == Picked(Rendered(listing)) && (r.truncated <==> r.names != Rendered(listing))
  {
    hide Rendered, Picked, Subsequence, TotalSize, Size, Settles;
    read := 0;
    if name == "" {
      return NameRequired, 0;
    }
    NothingListed(listing);
    var seen: seq<string> := [];
    var seenSize := 0;
    var truncated := false;
    for i := 0 to |listing|
      invariant forall j :: 0 <= j < i ==> !Settles(listing[j], name)
      invariant seen == Picked(Rendered(listing[..i])) && seenSize == TotalSize(seen)
      invariant if truncated then |seen| < |Rendered(listing[..i])| else seen == Rendered(listing[..i])
    {
      read := i + 1;
      SettlesIf(listing[i], name);
      if listing[i].Fault? {
        return ListingFailed(listing[i].fault), read;
      }
      var agent := listing[i].item;
      if agent.name == name {
        return Resolved(agent), read;
      }
      var shown := SanitizeForError(agent.name, MAX_AGENT_NAME_RUNES);
      OneListed(listing, i, shown);
      TotalOfOneMore(seen, shown);
      if |seen| < MAX_NAMES_IN_ERROR && seenSize + Size(shown) <= MAX_NAMES_SIZE {
        seen, seenSize := seen + [shown], seenSize + Size(shown);
      } else {
        truncated := true;
      }
    }
    assert listing[..|listing|] == listing;
    return NotRegistered(seen, truncated), |listing|;
  }

  lemma NothingListed(listing: Listing)
    ensures Rendered(listing[..0]) == [] && Picked([]) == [] && TotalSize([]) == 0
  {}

  lemma SettlesIf(step: Step<Agent, End>, name: string)
    ensures Settles(step, name) <==> step.Fault? || step.item.name == name
  {}

  /** One more name: listed if it still fits. */
  lemma OneListed(listing: Listing, i: nat, shown: string)
    requires i < |listing| && listing[i].Item? && shown == Clean(listing[i].item.name, MAX_AGENT_NAME_RUNES)
    ensures Rendered(listing[..i + 1]) == Rendered(listing[..i]) + [shown]
    ensures var kept := Picked(Rendered(listing[..i]));
            Picked(Rendered(listing[..i + 1])) ==
              if |kept| < MAX_NAMES_IN_ERROR && TotalSize(kept) + Size(shown) <= MAX_NAMES_SIZE then kept + [shown] else kept
  {
    hide Size, Clean, TotalSize;
    var before := Rendered(listing[..i]);
    assert listing[..i + 1][..i] == listing[..i];
    assert (before + [shown])[..|before|] == before;
  }

  lemma OneMoreKept(seen: seq<string>, before: seq<string>, shown: string)
    requires Subsequence(seen, before)
    ensures Subsequence(seen, before + [shown]) && Subsequence(seen + [shown], before + [shown])
  {
    assert (before + [shown])[..|before|] == before;
    assert (seen + [shown])[..|seen|] == seen;
  }

  /** What a name reads as in the refusal: its runs of plain runes, cut at sixty, and dots if it was. */
  function Shown(name: string): string {
    var plain := Spaced(Runs(name));
    if |plain| <= 60 then Trim(plain) else Trim(plain[..60]) + "..."
  }

  /** A listing read to its end without an error offers the refusal each agent's name so, in order. */
  lemma {:induction false} RenderedShowsEach(listing: Listing)
    requires forall i :: 0 <= i < |listing| ==> listing[i].Item?
    ensures |Rendered(listing)| == |listing|
    ensures forall i :: 0 <= i < |listing| ==> Rendered(listing)[i] == Shown(listing[i].item.name)
  {
    hide Clean, Shown;
    if listing != [] {
      var before, name := listing[..|listing| - 1], listing[|listing| - 1].item.name;
      RenderedShowsEach(before);
      CleanIsShown(name);
    }
  }

  lemma CleanIsShown(name: string)
    ensures Clean(name, MAX_AGENT_NAME_RUNES) == Shown(name)
  {
    hide Trim, Spaced, Runs, Body;
    RunsAreSpaced(name);
  }

  /**
   Against a correct pager whose listing fits the cap, a name that is registered is found, and
   a refusal means no agent on any page carries it.
   */
  lemma RefusalSawEveryPage(
    fetch: Fetch<Agent>, agents: seq<Agent>, least: nat, most: nat, name: string)
    requires Serves(fetch, agents, (a: Agent) => a.id, least, most)
    requires |agents| <= least * MAX_LISTING_PAGES
    ensures var listing := Steps(WalkAll(fetch));
            && |listing| == |agents|
            && forall i :: 0 <= i < |agents| ==>
                 (Settles(listing[i], name) <==> agents[i].name == name)
                 && (Settles(listing[i], name) ==> Outcome(listing[i]) == Resolved(agents[i]))
  {
    CorrectPagerIsReadWhole(fetch, agents, (a: Agent) => a.id, least, most);
  }
}
