/** Recall under an item and token budget, and the limits on automatic activation. */
module Recall {
  type MemoryId = string

  /** A ranked candidate: its text is what it costs tokens for. */
  datatype Candidate = Candidate(id: MemoryId, text: string)

  /** A quarter of the length, rounded up, and at least one. */
  function Tokens(text: string): (n: nat)
    ensures n >= 1 && 4 * n >= |text| && (n > 1 ==> 4 * (n - 1) < |text|)
  {
    var quarter := (|text| + 3) / 4;
    if quarter > 1 then quarter else 1
  }

  function Cost(chosen: seq<Candidate>): nat {
    if chosen == [] then 0 else Cost(chosen[..|chosen| - 1]) + Tokens(chosen[|chosen| - 1].text)
  }

  /** Room for one more candidate beside a selection. */
  predicate Fits(chosen: seq<Candidate>, extra: Candidate, maxItems: nat, maxTokens: nat) {
    |chosen| < maxItems && Cost(chosen) + Tokens(extra.text) <= maxTokens
  }

  /** The positions taken one after another while both budgets allow. */
  function Kept(ranked: seq<Candidate>, maxItems: nat, maxTokens: nat): (kept: seq<nat>)
    ensures forall i :: 0 <= i < |kept| ==> kept[i] < |ranked|
    ensures |kept| <= |ranked|
    decreases |ranked|
  {
    if ranked == [] then []
    else
      var last := |ranked| - 1;
      var before := Kept(ranked[..last], maxItems, maxTokens);
      if Fits(At(ranked, before), ranked[last], maxItems, maxTokens) then before + [last] else before
  }

  function At(ranked: seq<Candidate>, positions: seq<nat>): (chosen: seq<Candidate>)
    requires forall i :: 0 <= i < |positions| ==> positions[i] < |ranked|
    ensures |chosen| == |positions|
  {
    seq(|positions|, i requires 0 <= i < |positions| => ranked[positions[i]])
  }

  datatype Selection = Selection(items: seq<Candidate>, tokens: nat, truncated: bool)

  lemma AtPrefix(ranked: seq<Candidate>, n: nat, positions: seq<nat>)
    requires n <= |ranked| && forall i :: 0 <= i < |positions| ==> positions[i] < n
    ensures At(ranked[..n], positions) == At(ranked, positions)
  {
  }

  /** The loop of `recall` over the ranked items. */
  method SelectRanked(ranked: seq<Candidate>, maxItems: nat, maxTokens: nat) returns (r: Selection)
    ensures r.items == At(ranked, Kept(ranked, maxItems, maxTokens))
    ensures r.tokens == Cost(r.items) && |r.items| <= maxItems && r.tokens <= maxTokens
    ensures r.truncated <==> |r.items| < |ranked|
  {
    var selected: seq<Candidate> := [];
    var tokens := 0;
    for n := 0 to |ranked|
      invariant |selected| <= maxItems && tokens <= maxTokens && tokens == Cost(selected)
      invariant selected == At(ranked[..n], Kept(ranked[..n], maxItems, maxTokens))
    {
      KeptNext(ranked, n, maxItems, maxTokens);
      var cost := Tokens(ranked[n].text);
      if |selected| >= maxItems || tokens + cost > maxTokens {
        continue;
      }
      assert (selected + [ranked[n]])[..|selected|] == selected;
      selected := selected + [ranked[n]];
      tokens := tokens + cost;
    }
    assert ranked[..|ranked|] == ranked;
    r := Selection(selected, tokens, |selected| < |ranked|);
  }

  lemma KeptNext(ranked: seq<Candidate>, n: nat, maxItems: nat, maxTokens: nat)
    requires n < |ranked|
    ensures var before := At(ranked[..n], Kept(ranked[..n], maxItems, maxTokens));
            At(ranked[..n + 1], Kept(ranked[..n + 1], maxItems, maxTokens))
            == if Fits(before, ranked[n], maxItems, maxTokens) then before + [ranked[n]] else before
  {
    assert ranked[..n + 1][..n] == ranked[..n];
    AtPrefix(ranked[..n + 1], n, Kept(ranked[..n], maxItems, maxTokens));
  }

  lemma {:induction false} CostGrows(chosen: seq<Candidate>, more: seq<Candidate>)
    requires chosen <= more
    ensures Cost(chosen) <= Cost(more)
    decreases |more|
  {
    if |chosen| < |more| {
      CostGrows(chosen, more[..|more| - 1]);
    } else {
      assert chosen == more;
    }
  }

  /** What is taken stays taken: the positions kept of a prefix begin those kept of the whole. */
  lemma KeptGrows(ranked: seq<Candidate>, maxItems: nat, maxTokens: nat)
    requires ranked != []
    ensures var last := |ranked| - 1;
            var before := Kept(ranked[..last], maxItems, maxTokens);
            var kept := Kept(ranked, maxItems, maxTokens);
            && kept == (if Fits(At(ranked[..last], before), ranked[last], maxItems, maxTokens) then before + [last] else before)
            && At(ranked[..last], before) <= At(ranked, kept)
  {
    var last := |ranked| - 1;
    AtPrefix(ranked, last, Kept(ranked[..last], maxItems, maxTokens));
  }

  lemma {:induction false} KeptInRankOrder(ranked: seq<Candidate>, maxItems: nat, maxTokens: nat)
    ensures var kept := Kept(ranked, maxItems, maxTokens);
            forall j, k :: 0 <= j < k < |kept| ==> kept[j] < kept[k]
    decreases |ranked|
  {
    if ranked != [] {
      KeptInRankOrder(ranked[..|ranked| - 1], maxItems, maxTokens);
      KeptGrows(ranked, maxItems, maxTokens);
    }
  }

  lemma FitsLess(chosen: seq<Candidate>, more: seq<Candidate>, extra: Candidate, maxItems: nat, maxTokens: nat)
    requires chosen <= more && !Fits(chosen, extra, maxItems, maxTokens)
    ensures !Fits(more, extra, maxItems, maxTokens)
  {
    CostGrows(chosen, more);
  }

  lemma LeftOutBefore(before: seq<nat>, kept: seq<nat>, i: nat)
    requires before <= kept && i !in kept
    ensures i !in before
  {
    forall j | 0 <= j < |before| ensures before[j] != i {
      assert kept[j] == before[j];
    }
  }

  lemma LastIsIn(before: seq<nat>, last: nat)
    ensures last in before + [last]
  {
    assert (before + [last])[|before|] == last;
  }

  /** Nothing the selection leaves out would still fit beside it. */
  lemma {:induction false} SelectionIsMaximal(ranked: seq<Candidate>, maxItems: nat, maxTokens: nat, i: nat)
    requires i < |ranked| && i !in Kept(ranked, maxItems, maxTokens)
    ensures !Fits(At(ranked, Kept(ranked, maxItems, maxTokens)), ranked[i], maxItems, maxTokens)
    decreases |ranked|
  {
    var last := |ranked| - 1;
    var before := Kept(ranked[..last], maxItems, maxTokens);
    KeptGrows(ranked, maxItems, maxTokens);
    if i < last {
      LeftOutBefore(before, Kept(ranked, maxItems, maxTokens), i);
      SelectionIsMaximal(ranked[..last], maxItems, maxTokens, i);
    } else {
      LastIsIn(before, last);
    }
    StillDoesNotFit(ranked, maxItems, maxTokens, ranked[i]);
  }

  lemma StillDoesNotFit(ranked: seq<Candidate>, maxItems: nat, maxTokens: nat, extra: Candidate)
    requires ranked != []
    requires var front := ranked[..|ranked| - 1]; !Fits(At(front, Kept(front, maxItems, maxTokens)), extra, maxItems, maxTokens)
    ensures !Fits(At(ranked, Kept(ranked, maxItems, maxTokens)), extra, maxItems, maxTokens)
  {
    var front := ranked[..|ranked| - 1];
    KeptGrows(ranked, maxItems, maxTokens);
    FitsLess(At(front, Kept(front, maxItems, maxTokens)), At(ranked, Kept(ranked, maxItems, maxTokens)), extra, maxItems, maxTokens);
  }

  // ---- automatic activation, one call after another ----

  datatype Event = Activated(memory: MemoryId, actor: string, day: int) | Other(memory: MemoryId)

  datatype Limits = Limits(perTask: nat, perDay: nat)

  predicate IsOn(e: Event, marker: string, day: int) {
    e.Activated? && e.actor == marker && e.day == day
  }

  predicate IsFrom(e: Event, sources: map<MemoryId, string>, marker: string, source: string) {
    e.Activated? && e.actor == marker && e.memory in sources && sources[e.memory] == source
  }

  function ActivatedOn(events: seq<Event>, marker: string, day: int): nat {
    if events == [] then 0
    else
      var last := |events| - 1;
      ActivatedOn(events[..last], marker, day) + if IsOn(events[last], marker, day) then 1 else 0
  }

  /** Activations by the marker whose item is still stored and comes from the source. */
  function ActivatedFrom(events: seq<Event>, sources: map<MemoryId, string>, marker: string, source: string): nat {
    if events == [] then 0
    else
      var last := |events| - 1;
      ActivatedFrom(events[..last], sources, marker, source) + if IsFrom(events[last], sources, marker, source) then 1 else 0
  }

  /** An activation that counts. */
  predicate IsMarked(e: Event, marker: string) {
    e.Activated? && e.actor == marker
  }

  /** Stored items' sources and the audit trail; `clock` is the latest day a counted activation was recorded on. */
  datatype Trail = Trail(sources: map<MemoryId, string>, events: seq<Event>, clock: int)

  ghost predicate WithinLimits(t: Trail, marker: string, limits: Limits) {
    && (forall day :: ActivatedOn(t.events, marker, day) <= limits.perDay)
    && (forall source :: ActivatedFrom(t.events, t.sources, marker, source) <= limits.perTask)
    && (forall i :: 0 <= i < |t.events| && IsMarked(t.events[i], marker) ==> t.events[i].day <= t.clock)
  }

  lemma {:induction false} NothingOnLaterDays(events: seq<Event>, marker: string, clock: int, day: int)
    requires clock < day && forall i :: 0 <= i < |events| && IsMarked(events[i], marker) ==> events[i].day <= clock
    ensures ActivatedOn(events, marker, day) == 0
    decreases |events|
  {
    if events != [] {
      NothingOnLaterDays(events[..|events| - 1], marker, clock, day);
    }
  }

  /** Forgetting an item, or adding one without events, does not raise any count. */
  lemma {:induction false} CountsFollowSources(
    events: seq<Event>, sources: map<MemoryId, string>, sources': map<MemoryId, string>, marker: string, source: string)
    requires forall i :: 0 <= i < |events| && events[i].memory in sources' ==>
               events[i].memory in sources && sources[events[i].memory] == sources'[events[i].memory]
    ensures ActivatedFrom(events, sources', marker, source) <= ActivatedFrom(events, sources, marker, source)
    decreases |events|
  {
    if events != [] {
      CountsFollowSources(events[..|events| - 1], sources, sources', marker, source);
    }
  }

  lemma FewerSources(t: Trail, sources': map<MemoryId, string>, marker: string, limits: Limits)
    requires WithinLimits(t, marker, limits)
    requires forall i :: 0 <= i < |t.events| && t.events[i].memory in sources' ==>
               t.events[i].memory in t.sources && t.sources[t.events[i].memory] == sources'[t.events[i].memory]
    ensures WithinLimits(t.(sources := sources'), marker, limits)
  {
    forall source ensures ActivatedFrom(t.events, sources', marker, source) <= limits.perTask {
      CountsFollowSources(t.events, t.sources, sources', marker, source);
    }
  }

  function Without(events: seq<Event>, m: MemoryId): seq<Event> {
    if events == [] then []
    else Without(events[..|events| - 1], m) + if events[|events| - 1].memory == m then [] else [events[|events| - 1]]
  }

  lemma CountsAppend(events: seq<Event>, e: Event, sources: map<MemoryId, string>, marker: string, day: int, source: string)
    ensures ActivatedOn(events + [e], marker, day) == ActivatedOn(events, marker, day) + if IsOn(e, marker, day) then 1 else 0
    ensures ActivatedFrom(events + [e], sources, marker, source)
         == ActivatedFrom(events, sources, marker, source) + if IsFrom(e, sources, marker, source) then 1 else 0
  {
    assert (events + [e])[..|events|] == events;
  }

  lemma {:induction false} FewerCounts(
    events: seq<Event>, sources: map<MemoryId, string>, m: MemoryId, marker: string, day: int, source: string)
    ensures ActivatedOn(Without(events, m), marker, day) <= ActivatedOn(events, marker, day)
    ensures ActivatedFrom(Without(events, m), sources - {m}, marker, source) <= ActivatedFrom(events, sources, marker, source)
    decreases |events|
  {
    if events != [] {
      var last := |events| - 1;
      var before := Without(events[..last], m);
      FewerCounts(events[..last], sources, m, marker, day, source);
      if events[last].memory != m {
        CountsAppend(before, events[last], sources - {m}, marker, day, source);
      } else {
        assert Without(events, m) == before;
      }
    }
  }

  lemma {:induction false} WithoutIsPart(events: seq<Event>, m: MemoryId)
    ensures forall i :: 0 <= i < |Without(events, m)| ==> Without(events, m)[i] in events
    decreases |events|
  {
    if events != [] {
      WithoutIsPart(events[..|events| - 1], m);
    }
  }

  lemma FewerEvents(t: Trail, m: MemoryId, marker: string, limits: Limits)
    requires WithinLimits(t, marker, limits)
    ensures WithinLimits(Trail(t.sources - {m}, Without(t.events, m), t.clock), marker, limits)
  {
    forall day ensures ActivatedOn(Without(t.events, m), marker, day) <= limits.perDay {
      FewerCounts(t.events, t.sources, m, marker, day, "");
    }
    forall source ensures ActivatedFrom(Without(t.events, m), t.sources - {m}, marker, source) <= limits.perTask {
      FewerCounts(t.events, t.sources, m, marker, 0, source);
    }
    WithoutIsPart(t.events, m);
    var events := Without(t.events, m);
    forall i | 0 <= i < |events| && IsMarked(events[i], marker) ensures events[i].day <= t.clock {
      assert events[i] in t.events;
    }
  }

  /** One more event: it must be none that counts, or one that both limits leave room for. */
  lemma OneMoreEvent(t: Trail, e: Event, marker: string, limits: Limits)
    requires WithinLimits(t, marker, limits)
    requires IsMarked(e, marker) ==>
      && t.clock <= e.day && e.memory in t.sources
      && ActivatedOn(t.events, marker, e.day) < limits.perDay
      && ActivatedFrom(t.events, t.sources, marker, t.sources[e.memory]) < limits.perTask
    ensures WithinLimits(Trail(t.sources, t.events + [e], if IsMarked(e, marker) then e.day else t.clock), marker, limits)
  {
    var events := t.events + [e];
    assert events[..|t.events|] == t.events;
    forall day ensures ActivatedOn(events, marker, day) <= limits.perDay {
      assert ActivatedOn(t.events, marker, day) <= limits.perDay;
    }
    forall source ensures ActivatedFrom(events, t.sources, marker, source) <= limits.perTask {
      assert ActivatedFrom(t.events, t.sources, marker, source) <= limits.perTask;
    }
  }

  class ActivationService {
    const marker: string
    const limits: Limits
    var sources: map<MemoryId, string>
    var events: seq<Event>
    ghost var clock: int

    constructor (marker: string, limits: Limits)
      ensures this.marker == marker && this.limits == limits && Contents().sources == map[] && events == []
      ensures WithinLimits(Contents(), marker, limits)
    {
      this.marker, this.limits, sources, events, clock := marker, limits, map[], [], 0;
    }

    ghost function Contents(): Trail
      reads this
    {
      Trail(sources, events, clock)
    }

    /** A new item under an identifier never used before. */
    method Propose(m: MemoryId, source: string)
      requires m !in sources && forall i :: 0 <= i < |events| ==> events[i].memory != m
      requires WithinLimits(Contents(), marker, limits)
      modifies this
      ensures Contents() == Trail(old(sources)[m := source], old(events) + [Other(m)], old(clock))
      ensures WithinLimits(Contents(), marker, limits)
    {
      FewerSources(Contents(), sources[m := source], marker, limits);
      sources := sources[m := source];
      Record(Other(m));
    }

    /** The SQLite store deletes the item's events with it, the others keep them. */
    method Purge(m: MemoryId, cascades: bool)
      requires WithinLimits(Contents(), marker, limits)
      modifies this
      ensures sources == old(sources) - {m} && clock == old(clock)
      ensures events == if cascades then Without(old(events), m) else old(events) + [Other(m)]
      ensures WithinLimits(Contents(), marker, limits)
    {
      FewerSources(Contents(), sources - {m}, marker, limits);
      if cascades {
        FewerEvents(Contents(), m, marker, limits);
        events := Without(events, m);
        sources := sources - {m};
      } else {
        sources := sources - {m};
        Record(Other(m));
      }
    }

    /** Any event that does not count, the activation by a developer among them. */
    method Record(e: Event)
      requires !IsMarked(e, marker) && WithinLimits(Contents(), marker, limits)
      modifies this`events
      ensures events == old(events) + [e] && WithinLimits(Contents(), marker, limits)
    {
      OneMoreEvent(Contents(), e, marker, limits);
      events := events + [e];
    }

    /** `_orchestrator_decision_count`, over the stored items of one source. */
    method CountFrom(source: string) returns (n: nat)
      ensures n == ActivatedFrom(events, sources, marker, source)
    {
      n := 0;
      for i := 0 to |events|
        invariant n == ActivatedFrom(events[..i], sources, marker, source)
      {
        assert events[..i + 1][..i] == events[..i];
        if IsFrom(events[i], sources, marker, source) {
          n := n + 1;
        }
      }
      assert events[..|events|] == events;
    }

    /** `_orchestrator_decision_count`, over one day. */
    method CountOn(day: int) returns (n: nat)
      ensures n == ActivatedOn(events, marker, day)
    {
      n := 0;
      for i := 0 to |events|
        invariant n == ActivatedOn(events[..i], marker, day)
      {
        assert events[..i + 1][..i] == events[..i];
        if IsOn(events[i], marker, day) {
          n := n + 1;
        }
      }
      assert events[..|events|] == events;
    }

    /**
     * `activate_by_orchestrator`: activated exactly when the rest of the policy allows it and both counts are below
     * their limits. The count is taken on day `checked`, the event recorded on day `recorded`, maybe after midnight.
     */
    method Activate(m: MemoryId, allowedOtherwise: bool, checked: int, recorded: int) returns (activated: bool)
      requires m in sources && clock <= checked <= recorded
      requires WithinLimits(Contents(), marker, limits)
      modifies this
      ensures activated <==>
                allowedOtherwise
                && ActivatedFrom(old(events), old(sources), marker, old(sources)[m]) < limits.perTask
                && ActivatedOn(old(events), marker, checked) < limits.perDay
      ensures events == old(events) + [if activated then Activated(m, marker, recorded) else Other(m)]
      ensures sources == old(sources)
      ensures WithinLimits(Contents(), marker, limits)
    {
      var forTask := CountFrom(sources[m]);
      var today := CountOn(checked);
      if !allowedOtherwise || forTask >= limits.perTask || today >= limits.perDay {
        Record(Other(m));
        return false;
      }
      if checked < recorded {
        NothingOnLaterDays(events, marker, clock, recorded);
      }
      var e := Activated(m, marker, recorded);
      OneMoreEvent(Contents(), e, marker, limits);
      events := events + [e];
      clock := recorded;
      return true;
    }
  }
}
