/** Rounds of consecutive picks (sdk/cockpit/auth/scheduler_roundrobin.go,
    sdk/cockpit/auth/scheduler_selection.go): everyone who can be picked has one turn. */
module Fairness {
  import opened Ordering
  import opened Credentials
  import opened ShardIndex
  import opened ShardCursors
  import opened Rotation
  import opened Shards
  import opened Selection
  import opened Gathering
  import opened Websockets
  import opened Scheduler

  /** `ks` are the turns of a whole round that starts at `cursor`: the marked positions,
      each once. */
  lemma RoundVisitsAll(mask: seq<bool>, cursor: nat, ks: seq<nat>)
    requires Accepted(mask) > 0 && ks == Turns(mask, cursor, Accepted(mask))
    ensures Distinct(ks) && |ks| == Accepted(mask)
    ensures forall k: nat :: k in ks <==> k < |mask| && mask[k]
  {
    Fairness(mask, cursor);
  }

  /** One turn more of the round has been taken. */
  lemma TurnTakenOff(mask: seq<bool>, start: nat, total: nat, ks: seq<nat>, cursor: nat, left: nat)
    requires left > 0 && ks + Turns(mask, cursor, left) == Turns(mask, start, total)
    ensures ks + [Turn(mask, cursor)] + Turns(mask, Turn(mask, cursor) + 1, left - 1) == Turns(mask, start, total)
  {
    NextTurn(mask, cursor, left);
    hide Turns, Turn;
    var k := Turn(mask, cursor);
    assert ks + ([k] + Turns(mask, k + 1, left - 1)) == ks + [k] + Turns(mask, k + 1, left - 1);
  }

  lemma NextTurn(mask: seq<bool>, cursor: nat, count: nat)
    requires count > 0
    ensures Turns(mask, cursor, count) == [Turn(mask, cursor)] + Turns(mask, Turn(mask, cursor) + 1, count - 1)
  {
  }

  lemma MaskMeans(flat: seq<string>, allowed: string -> bool)
    ensures var mask := Mask(flat, allowed); |mask| == |flat| && forall k: nat :: k < |flat| ==> (mask[k] <==> allowed(flat[k]))
  {
  }

  /** A whole round returns each allowed entry once. */
  lemma RoundEnds(flat: seq<string>, allowed: string -> bool, start: nat, cursor: nat, count: nat, ks: seq<nat>, picked: seq<string>)
    requires count == Accepted(Mask(flat, allowed)) > 0 && Distinct(flat)
    requires |picked| == count && Underway(flat, allowed, start, count, ks, picked, cursor)
    ensures Distinct(picked) && forall id :: id in picked <==> id in flat && allowed(id)
  {
    hide Accepted, Distinct, Mask;
    NoTurnsLeft(Mask(flat, allowed), cursor);
    RoundVisitsAll(Mask(flat, allowed), start, ks);
    MaskMeans(flat, allowed);
    EntriesOf(flat, allowed, ks, picked);
  }

  lemma NoTurnsLeft(mask: seq<bool>, cursor: nat)
    ensures Turns(mask, cursor, 0) == []
  {
  }

  lemma SomeAccepted(mask: seq<bool>)
    requires Accepted(mask) > 0
    ensures true in mask
  {
    if true !in mask {
      assert forall i :: 0 <= i < |mask| ==> mask[i] in mask;
      RankMonotone(mask, 0, |mask|);
    }
  }

  lemma TurnIsThere(flat: seq<string>, allowed: string -> bool, cursor: nat)
    requires true in Mask(flat, allowed)
    ensures Turn(Mask(flat, allowed), cursor) < |flat|
    ensures TurnOf(flat, allowed, cursor) == Some(flat[Turn(Mask(flat, allowed), cursor)])
  {
    TurnFails(Mask(flat, allowed), cursor);
  }

  lemma EntriesOf(flat: seq<string>, allowed: string -> bool, ks: seq<nat>, picked: seq<string>)
    requires Distinct(flat) && Distinct(ks) && |picked| == |ks|
    requires forall k: nat :: k in ks <==> k < |flat| && allowed(flat[k])
    requires forall j :: 0 <= j < |ks| ==> ks[j] < |flat| && picked[j] == flat[ks[j]]
    ensures Distinct(picked) && forall id :: id in picked <==> id in flat && allowed(id)
  {
    forall id ensures id in picked <==> id in flat && allowed(id) {
      if id in picked {
        var j :| 0 <= j < |picked| && picked[j] == id;
        assert ks[j] in ks;
      }
      if id in flat && allowed(id) {
        var k: nat :| k < |flat| && flat[k] == id;
        var j :| 0 <= j < |ks| && ks[j] == k;
        assert picked[j] == id;
      }
    }
  }

  /** `picked` are the first picks of a round that started at `start`, at the positions
      `ks`, and the view stands at `cursor` now. */
  ghost predicate Underway(flat: seq<string>, allowed: string -> bool, start: nat, total: nat, ks: seq<nat>, picked: seq<string>,
                           cursor: nat)
  {
    && |ks| == |picked| <= total
    && ks + Turns(Mask(flat, allowed), cursor, total - |ks|) == Turns(Mask(flat, allowed), start, total)
    && forall j :: 0 <= j < |ks| ==> ks[j] < |flat| && picked[j] == flat[ks[j]]
  }

  lemma RoundStarts(flat: seq<string>, allowed: string -> bool, start: nat, total: nat)
    ensures Underway(flat, allowed, start, total, [], [], start)
  {
    hide Turns;
  }

  lemma RoundGoesOn(flat: seq<string>, allowed: string -> bool, start: nat, total: nat, ks: seq<nat>, picked: seq<string>,
                    cursor: nat, turn: nat)
    requires Underway(flat, allowed, start, total, ks, picked, cursor) && |picked| < total
    requires turn == Turn(Mask(flat, allowed), cursor) && turn < |flat|
    ensures Underway(flat, allowed, start, total, ks + [turn], picked + [flat[turn]], turn + 1)
  {
    hide Turns, Turn;
    TurnTakenOff(Mask(flat, allowed), start, total, ks, cursor, total - |ks|);
  }

  /** As many consecutive calls of pickRoundRobin as there are allowed entries return each
      allowed entry once. */
  method RoundOfEntries(view: ReadyView, allowed: string -> bool, count: nat) returns (picked: seq<string>)
    requires Distinct(view.flat) && count == Accepted(Mask(view.flat, allowed)) && count > 0
    modifies view
    ensures |picked| == count && Distinct(picked)
    ensures forall id :: id in picked <==> id in view.flat && allowed(id)
  {
    hide Underway, Turn, TurnOf, Accepted, Distinct, Mask;
    ghost var start, ks := view.cursor, [];
    picked := [];
    RoundStarts(view.flat, allowed, start, count);
    SomeAccepted(Mask(view.flat, allowed));
    while |picked| < count
      invariant |picked| <= count && Underway(view.flat, allowed, start, count, ks, picked, view.cursor)
    {
      TurnIsThere(view.flat, allowed, view.cursor);
      ghost var turn := Turn(Mask(view.flat, allowed), view.cursor);
      RoundGoesOn(view.flat, allowed, start, count, ks, picked, view.cursor, turn);
      var id := view.PickRoundRobin(allowed);
      picked := picked + [id.value];
      ks := ks + [turn];
    }
    RoundEnds(view.flat, allowed, start, view.cursor, count, ks, picked);
  }

  // ----- rounds of lookups in one shard

  lemma GreatestOf(S: set<string>) returns (x: string)
    requires S != {}
    ensures x in S && forall y :: y in S && y != x ==> Before(y, x)
    decreases S
  {
    BeforeIsOrder();
    x :| x in S;
    if S != {x} {
      var z := GreatestOf(S - {x});
      x := if Before(x, z) then z else x;
    }
  }

  lemma SomeListing(S: set<string>) returns (flat: seq<string>)
    ensures Lists(flat, S, Before)
    decreases S
  {
    if S == {} {
      return [];
    }
    var x := GreatestOf(S);
    flat := SomeListing(S - {x});
    ListsMore(flat, S - {x}, Before, x);
    assert S - {x} + {x} == S;
    flat := flat + [x];
  }

  lemma ListingIsDistinct(flat: seq<string>, S: set<string>)
    requires Lists(flat, S, Before)
    ensures Distinct(flat) && forall id :: id in flat <==> id in S
  {
    forall i, j | 0 <= i < j < |flat| ensures flat[i] != flat[j] {
      BeforeIsStrict(flat[i], flat[j]);
    }
  }

  lemma {:induction false} AcceptedIds(flat: seq<string>, allowed: string -> bool, k: nat)
    requires Distinct(flat) && k <= |flat|
    ensures Rank(Mask(flat, allowed), k) == |set id | id in flat[..k] && allowed(id)|
    decreases k
  {
    hide Mask;
    MaskMeans(flat, allowed);
    if k > 0 {
      AcceptedIds(flat, allowed, k - 1);
      var before, after := (set id | id in flat[..k - 1] && allowed(id)), (set id | id in flat[..k] && allowed(id));
      assert flat[..k] == flat[..k - 1] + [flat[k - 1]];
      assert after == if allowed(flat[k - 1]) then before + {flat[k - 1]} else before;
    }
  }

  /** A listing has as many accepted entries as the priority has choices. */
  lemma AcceptedChoices(flat: seq<string>, es: Entries, priority: int, preferWebsocket: bool, allowed: string -> bool)
    requires Lists(flat, ViewAt(es, priority, preferWebsocket), Before)
    ensures Accepted(Mask(flat, allowed)) == |Choices(es, priority, preferWebsocket, allowed)|
    ensures Distinct(flat) && forall id :: id in Choices(es, priority, preferWebsocket, allowed) <==> id in flat && allowed(id)
  {
    hide ViewAt, Rank;
    ListingIsDistinct(flat, ViewAt(es, priority, preferWebsocket));
    AcceptedIds(flat, allowed, |flat|);
    assert flat[..|flat|] == flat;
    assert (set id | id in flat && allowed(id)) == Choices(es, priority, preferWebsocket, allowed);
  }

  /** Nothing that is held back runs out by `until`. */
  ghost predicate Settled(es: Entries, until: Time) {
    forall id :: id in es && OnHold(es[id]) ==> es[id].nextRetryAt == 0 || es[id].nextRetryAt > until
  }

  lemma SettledStays(es: Entries, model: ModelName, until: Time, now: Time)
    requires Settled(es, until) && now <= until
    ensures PromoteAll(es, model, now) == es
  {
    hide Evaluate;
  }

  /** A lookup taken by turns at the highest priority picks the entry in turn in the view. */
  lemma TurnOfListing(flat: seq<string>, es: Entries, priority: int, preferWebsocket: bool, allowed: string -> bool,
                      before: ViewCursors, after: ViewCursors, picked: Option<Auth>)
    requires Lists(flat, ViewAt(es, priority, preferWebsocket), Before)
    requires picked.Some? && picked.value.priority == priority
    requires RotatesReady(es, preferWebsocket, RoundRobin, allowed, before, after, picked)
    ensures var turn := Turn(Mask(flat, allowed), CursorIn(before, es, priority, preferWebsocket));
            && turn < |flat| && picked.value.id == flat[turn]
            && CursorIn(after, es, priority, preferWebsocket) == turn + 1
  {
    hide Turn, Mask, ViewAt, Lists, UsesSockets;
    RotatesInListing(flat, es, priority, preferWebsocket, allowed, before, after, picked);
  }

  /** The only priority that a lookup can pick at is the highest one. */
  lemma PickedAtHighest(es: Entries, priority: int, preferWebsocket: bool, strategy: Strategy, allowed: string -> bool,
                        picked: Option<Auth>)
    requires IsHighest(es, preferWebsocket, allowed, priority) && IsReadyPick(es, preferWebsocket, strategy, allowed, picked)
    ensures picked.Some? && picked.value.priority == priority
  {
    var p :| picked.Some? ==> IsHighest(es, preferWebsocket, allowed, p) && IsPick(es, p, preferWebsocket, strategy, allowed, picked);
  }

  lemma RoundIsWhole(es: Entries, priority: int, preferWebsocket: bool, flat: seq<string>, allowed: string -> bool, start: nat,
                     ks: seq<nat>, picked: seq<string>, cursor: nat)
    requires Lists(flat, ViewAt(es, priority, preferWebsocket), Before)
    requires var total := |Choices(es, priority, preferWebsocket, allowed)|;
             total == |picked| > 0 && Underway(flat, allowed, start, total, ks, picked, cursor)
    ensures Distinct(picked) && forall id :: id in picked <==> id in Choices(es, priority, preferWebsocket, allowed)
  {
    hide Lists, ViewAt, Choices, Turns, Accepted, Distinct, Mask;
    AcceptedChoices(flat, es, priority, preferWebsocket, allowed);
    RoundEnds(flat, allowed, start, cursor, |picked|, ks, picked);
  }

  /** As many consecutive calls of pickReadyLocked on a shard as its best priority has
      choices pick each of these once, as long as nothing that is held back runs out
      meanwhile. */
  method RoundOfShard(shard: ModelScheduler, preferWebsocket: bool, allowed: string -> bool, times: seq<Time>, ghost priority: int)
    returns (picked: seq<string>)
    requires |times| > 0 && shard.Valid(times[0]) && forall i, j :: 0 <= i < j < |times| ==> times[i] <= times[j]
    requires Settled(shard.entries, times[|times| - 1])
    requires IsHighest(shard.entries, preferWebsocket, allowed, priority)
    requires |times| == |Choices(shard.entries, priority, preferWebsocket, allowed)|
    modifies shard.Repr
    ensures shard.Valid(times[|times| - 1]) && shard.entries == old(shard.entries)
    ensures |picked| == |times| && Distinct(picked)
    ensures forall id :: id in picked <==> id in Choices(shard.entries, priority, preferWebsocket, allowed)
  {
    hide Turn, Mask, Underway, Distinct, Lists, ViewAt, Choices, IsIndexOf, Faithful, IsHighest, Settled, PromoteAll, IsReadyPick,
         RotatesReady, ModelScheduler.Valid, ModelScheduler.Cursors, CursorIn;
    ghost var es, last := shard.entries, times[|times| - 1];
    ghost var flat := SomeListing(ViewAt(es, priority, preferWebsocket));
    ghost var start, ks := CursorIn(shard.Cursors(), es, priority, preferWebsocket), [];
    picked := [];
    RoundStarts(flat, allowed, start, |times|);
    while |picked| < |times|
      invariant |picked| <= |times| && shard.entries == es && fresh(shard.Repr - old(shard.Repr))
      invariant shard.Valid(times[if |picked| == 0 then 0 else |picked| - 1])
      invariant Underway(flat, allowed, start, |times|, ks, picked, CursorIn(shard.Cursors(), es, priority, preferWebsocket))
    {
      var now := times[|picked|];
      ghost var before := shard.Cursors();
      shard.Later(times[if |picked| == 0 then 0 else |picked| - 1], now);
      SettledStays(es, shard.modelKey, last, now);
      var auth := shard.PickReady(preferWebsocket, RoundRobin, allowed, now);
      PickedAtHighest(es, priority, preferWebsocket, RoundRobin, allowed, auth);
      TurnOfListing(flat, es, priority, preferWebsocket, allowed, before, shard.Cursors(), auth);
      ghost var turn := Turn(Mask(flat, allowed), CursorIn(before, es, priority, preferWebsocket));
      RoundGoesOn(flat, allowed, start, |times|, ks, picked, CursorIn(before, es, priority, preferWebsocket), turn);
      picked := picked + [auth.value.id];
      ks := ks + [turn];
    }
    RoundIsWhole(es, priority, preferWebsocket, flat, allowed, start, ks, picked,
                 CursorIn(shard.Cursors(), es, priority, preferWebsocket));
  }

  // ----- rounds of picks of the whole scheduler

  function EntriesIn(states: States, provider: string): Entries {
    if provider in states then states[provider].entries else map[]
  }

  ghost function CursorOf(states: States, provider: string, priority: int, preferWebsocket: bool): nat {
    if provider in states then CursorIn(states[provider].cursors, states[provider].entries, priority, preferWebsocket) else 0
  }

  /** A shard just looked up is found as it was, while nothing that it holds back runs out. */
  lemma StillPrepared(s: AuthScheduler, provider: string, model: ModelName, now: Time, later: Time)
    requires s.Showing(provider, model, now) && Settled(EntriesIn(s.Prepared(model, now), provider), later)
    ensures var states, found := s.Prepared(model, now), s.Prepared(model, later);
            provider in states && provider in found && found[provider] == states[provider]
  {
    var shard := s.providers[provider].modelShards[model];
    s.providers[provider].ShownAsItStands(model, now, shard.entries);
    SettledStays(shard.entries, model, later, later);
  }

  /** One provider's part of a pick by turns: the entry in turn in its view. */
  ghost predicate TakesOne(before: States, after: States, provider: string, priority: int, preferWebsocket: bool,
                           allowed: string -> bool, r: Outcome)
  {
    && r.Picked? && r.auth.provider == provider && r.auth.priority == priority
    && provider in before && provider in after && after[provider].entries == before[provider].entries
    && RotatesReady(before[provider].entries, preferWebsocket, RoundRobin, allowed, before[provider].cursors, after[provider].cursors,
                    Some(r.auth))
  }

  lemma NothingToChoose(priority: int, preferWebsocket: bool, allowed: string -> bool)
    ensures Choices(map[], priority, preferWebsocket, allowed) == {}
  {
  }

  lemma MixedTakesOne(before: States, after: States, provider: string, priority: int, model: ModelName, allowed: string -> bool,
                      cursors: Cursors, moved: Cursors, r: Outcome)
    requires IsHighest(EntriesIn(before, provider), false, allowed, priority)
    requires Chooses(before, [provider], model, RoundRobin, allowed, cursors, moved, r)
    requires Turned(before, after, false, RoundRobin, allowed, r)
    ensures TakesOne(before, after, provider, priority, false, allowed, r)
  {
    hide Choices, RotatesReady, TakesTurn;
    var es := EntriesIn(before, provider);
    NothingToChoose(priority, false, allowed);
    assert provider in before && provider in Members([provider]) && ViewsOf(before, Members([provider]))[provider] == es;
    assert r.Picked? ==> Choices(es, r.auth.priority, false, allowed) != {};
  }

  lemma SingleTakesOne(before: States, after: States, provider: string, priority: int, preferWebsocket: bool, allowed: string -> bool,
                       r: Outcome)
    requires IsHighest(EntriesIn(before, provider), preferWebsocket, allowed, priority)
    requires ChoosesIn(before, provider, preferWebsocket, RoundRobin, allowed, r)
    requires Turned(before, after, preferWebsocket, RoundRobin, allowed, r) && (r.Picked? ==> r.auth.provider == provider)
    ensures TakesOne(before, after, provider, priority, preferWebsocket, allowed, r)
  {
    hide IsHighest, IsReadyPick, RotatesReady;
    PickedAtHighest(before[provider].entries, priority, preferWebsocket, RoundRobin, allowed, if r.Picked? then Some(r.auth) else None);
  }

  lemma OneMoreTaken(before: States, after: States, provider: string, priority: int, preferWebsocket: bool, flat: seq<string>,
                     allowed: string -> bool, start: nat, total: nat, ks: seq<nat>, picked: seq<string>, r: Outcome) returns (turn: nat)
    requires TakesOne(before, after, provider, priority, preferWebsocket, allowed, r)
    requires Lists(flat, ViewAt(EntriesIn(before, provider), priority, preferWebsocket), Before)
    requires Underway(flat, allowed, start, total, ks, picked, CursorOf(before, provider, priority, preferWebsocket)) && |picked| < total
    ensures Underway(flat, allowed, start, total, ks + [turn], picked + [r.auth.id], CursorOf(after, provider, priority, preferWebsocket))
  {
    hide Underway, Lists, ViewAt, RotatesReady, Turn, Mask, CursorIn;
    TurnOfListing(flat, before[provider].entries, priority, preferWebsocket, allowed, before[provider].cursors, after[provider].cursors,
                  Some(r.auth));
    turn := Turn(Mask(flat, allowed), CursorOf(before, provider, priority, preferWebsocket));
    RoundGoesOn(flat, allowed, start, total, ks, picked, CursorOf(before, provider, priority, preferWebsocket), turn);
  }

  /** As many consecutive calls of pickMixed on one provider as its best priority has choices
      pick each of these once, as long as nothing that is held back runs out meanwhile. */
  method RoundOfCandidates(s: AuthScheduler, providers: seq<string>, request: Request, times: seq<Time>, ghost provider: string,
                           ghost priority: int)
    returns (picked: seq<string>)
    requires s.Valid() && s.strategy == RoundRobin && request.pinned == "" && Normalized(providers) == [provider]
    requires |times| > 0 && s.clock <= times[0] && forall i, j :: 0 <= i < j < |times| ==> times[i] <= times[j]
    requires var keyed := request.(model := Canonical(request.model));
             var es := EntriesIn(s.Prepared(keyed.model, times[0]), provider);
             && Settled(es, times[|times| - 1]) && IsHighest(es, false, AllowedBy(keyed), priority)
             && |times| == |Choices(es, priority, false, AllowedBy(keyed))|
    modifies s.Repr
    ensures s.Valid() && fresh(s.Repr - old(s.Repr)) && s.known == old(s.known)
    ensures |picked| == |times| && Distinct(picked)
    ensures var keyed := request.(model := Canonical(request.model));
            var es := old(EntriesIn(s.Prepared(keyed.model, times[0]), provider));
            forall id :: id in picked <==> id in Choices(es, priority, false, AllowedBy(keyed))
  {
    hide AuthScheduler.Indexes, AuthScheduler.Prepared, AuthScheduler.Showing, AuthScheduler.Unbuilt, Answers, TurnOver, Chooses, Turned,
         TakesOne, Underway, Distinct, Lists, ViewAt, Choices, IsHighest, Settled, CursorOf, EntriesIn, Normalized, AllowedBy;
    ghost var model, keyed, last := Canonical(request.model), request.(model := Canonical(request.model)), times[|times| - 1];
    ghost var es := EntriesIn(s.Prepared(model, times[0]), provider);
    ghost var flat := SomeListing(ViewAt(es, priority, false));
    ghost var start, ks := CursorOf(s.Prepared(model, times[0]), provider, priority, false), [];
    picked := [];
    RoundStarts(flat, AllowedBy(keyed), start, |times|);
    var i := 0;
    while i < |times|
      invariant 0 <= i <= |times| && |picked| == i
      invariant s.Valid() && fresh(s.Repr - old(s.Repr)) && s.known == old(s.known) && s.strategy == RoundRobin
      invariant i < |times| ==> s.clock <= times[i]
      invariant EntriesIn(s.Prepared(model, times[if i < |times| then i else i - 1]), provider) == es
      invariant Underway(flat, AllowedBy(keyed), start, |times|, ks, picked,
                         CursorOf(s.Prepared(model, times[if i < |times| then i else i - 1]), provider, priority, false))
    {
      ghost var before, cursors := s.Prepared(model, times[i]), s.mixedCursors;
      var r := s.PickMixed(providers, request, times[i]);
      ghost var after := s.Prepared(model, times[i]);
      MixedTakesOne(before, after, provider, priority, model, AllowedBy(keyed), cursors, s.mixedCursors, r);
      ghost var turn := OneMoreTaken(before, after, provider, priority, false, flat, AllowedBy(keyed), start, |times|, ks, picked, r);
      TakenEntries(before, after, provider, priority, false, AllowedBy(keyed), r);
      ks := ks + [turn];
      picked := picked + [r.auth.id];
      i := i + 1;
      if i < |times| {
        SettledBefore(es, times[i], last);
        NextLookup(s, provider, model, times[i - 1], times[i], priority, false);
      }
    }
    RoundIsWhole(es, priority, false, flat, AllowedBy(keyed), start, ks, picked,
                 CursorOf(s.Prepared(model, last), provider, priority, false));
  }

  /** The same of pickSingle, with or without a websocket downstream. */
  method RoundOfSingle(s: AuthScheduler, provider: string, request: Request, websocket: bool, times: seq<Time>, ghost priority: int)
    returns (picked: seq<string>)
    requires s.Valid() && s.strategy == RoundRobin
    requires |times| > 0 && s.clock <= times[0] && forall i, j :: 0 <= i < j < |times| ==> times[i] <= times[j]
    requires var keyed := request.(model := Canonical(request.model));
             var es, prefers := EntriesIn(s.Prepared(keyed.model, times[0]), provider), Prefers(provider, keyed, websocket);
             && Settled(es, times[|times| - 1]) && IsHighest(es, prefers, AllowedBy(keyed), priority)
             && |times| == |Choices(es, priority, prefers, AllowedBy(keyed))|
    modifies s.Repr
    ensures s.Valid() && fresh(s.Repr - old(s.Repr)) && s.known == old(s.known)
    ensures |picked| == |times| && Distinct(picked)
    ensures var keyed := request.(model := Canonical(request.model));
            var es := old(EntriesIn(s.Prepared(keyed.model, times[0]), provider));
            forall id :: id in picked <==> id in Choices(es, priority, Prefers(provider, keyed, websocket), AllowedBy(keyed))
  {
    hide AuthScheduler.Indexes, AuthScheduler.Prepared, AuthScheduler.Showing, AuthScheduler.Unbuilt, SingleAnswers, ChoosesIn, Turned,
         TakesOne, Underway, Distinct, Lists, ViewAt, Choices, IsHighest, Settled, CursorOf, EntriesIn, AllowedBy, Prefers;
    ghost var model, keyed, last := Canonical(request.model), request.(model := Canonical(request.model)), times[|times| - 1];
    ghost var es, prefers := EntriesIn(s.Prepared(model, times[0]), provider), Prefers(provider, keyed, websocket);
    ProviderKnown(s, provider, keyed, websocket, times[0], priority);
    ghost var flat := SomeListing(ViewAt(es, priority, prefers));
    ghost var start, ks := CursorOf(s.Prepared(model, times[0]), provider, priority, prefers), [];
    picked := [];
    RoundStarts(flat, AllowedBy(keyed), start, |times|);
    var i := 0;
    while i < |times|
      invariant 0 <= i <= |times| && |picked| == i
      invariant s.Valid() && fresh(s.Repr - old(s.Repr)) && s.known == old(s.known) && s.strategy == RoundRobin
      invariant i < |times| ==> s.clock <= times[i]
      invariant provider in s.providers && EntriesIn(s.Prepared(model, times[if i < |times| then i else i - 1]), provider) == es
      invariant Underway(flat, AllowedBy(keyed), start, |times|, ks, picked,
                         CursorOf(s.Prepared(model, times[if i < |times| then i else i - 1]), provider, priority, prefers))
    {
      ghost var before := s.Prepared(model, times[i]);
      var r := s.PickSingle(provider, request, websocket, times[i]);
      ghost var after := s.Prepared(model, times[i]);
      SingleTakesOne(before, after, provider, priority, prefers, AllowedBy(keyed), r);
      ghost var turn := OneMoreTaken(before, after, provider, priority, prefers, flat, AllowedBy(keyed), start, |times|, ks, picked, r);
      TakenEntries(before, after, provider, priority, prefers, AllowedBy(keyed), r);
      ks := ks + [turn];
      picked := picked + [r.auth.id];
      i := i + 1;
      if i < |times| {
        SettledBefore(es, times[i], last);
        NextLookup(s, provider, model, times[i - 1], times[i], priority, prefers);
      }
    }
    RoundIsWhole(es, priority, prefers, flat, AllowedBy(keyed), start, ks, picked,
                 CursorOf(s.Prepared(model, last), provider, priority, prefers));
  }

  /** A provider with something to choose is a known one. */
  lemma ProviderKnown(s: AuthScheduler, provider: string, keyed: Request, websocket: bool, now: Time, priority: int)
    requires s.Valid()
    requires IsHighest(EntriesIn(s.Prepared(keyed.model, now), provider), Prefers(provider, keyed, websocket), AllowedBy(keyed), priority)
    ensures provider in s.providers
  {
    hide Choices, AllowedBy, Prefers;
    NothingToChoose(priority, Prefers(provider, keyed, websocket), AllowedBy(keyed));
  }

  lemma SettledBefore(es: Entries, now: Time, until: Time)
    requires Settled(es, until) && now <= until
    ensures Settled(es, now)
  {
  }

  lemma TakenEntries(before: States, after: States, provider: string, priority: int, preferWebsocket: bool, allowed: string -> bool,
                     r: Outcome)
    requires TakesOne(before, after, provider, priority, preferWebsocket, allowed, r)
    ensures r.Picked? && r.auth.provider == provider && EntriesIn(after, provider) == EntriesIn(before, provider)
  {
  }

  lemma NextLookup(s: AuthScheduler, provider: string, model: ModelName, now: Time, later: Time, priority: int, preferWebsocket: bool)
    requires s.Showing(provider, model, now) && Settled(EntriesIn(s.Prepared(model, now), provider), later)
    ensures EntriesIn(s.Prepared(model, later), provider) == EntriesIn(s.Prepared(model, now), provider)
    ensures CursorOf(s.Prepared(model, later), provider, priority, preferWebsocket)
         == CursorOf(s.Prepared(model, now), provider, priority, preferWebsocket)
  {
    hide AuthScheduler.Prepared, AuthScheduler.Showing;
    StillPrepared(s, provider, model, now, later);
  }

  /** As many consecutive calls of pickMixed as there are providers with a top candidate
      pick from each of these providers once, as long as they stay the same while the
      calls go on. */
  method RoundOfProviders(s: AuthScheduler, providers: seq<string>, request: Request, times: seq<Time>, ghost mask: seq<bool>)
    returns (served: seq<string>)
    requires s.Valid() && s.strategy == RoundRobin && request.pinned == "" && Normalized(providers) != []
    requires AllPunctual(PoolOf(s.known, providers, request), Canonical(request.model))
    requires Accepted(mask) == |times| > 0 && s.clock <= times[0] && forall i, j :: 0 <= i < j < |times| ==> times[i] <= times[j]
    requires forall i :: 0 <= i < |times| ==>
      mask == TopProviders(PoolOf(s.known, providers, request), Canonical(request.model), times[i], Normalized(providers))
    modifies s.Repr
    ensures s.Valid() && fresh(s.Repr - old(s.Repr)) && s.known == old(s.known)
    ensures |served| == |times| && Distinct(served)
    ensures forall p :: p in served <==>
      p in Normalized(providers) && HasTop(PoolOf(s.known, providers, request), Canonical(request.model), times[0], p)
  {
    hide AuthScheduler.Indexes, Answers, TopProviders, AllPunctual, Candidates, Turns, Turn, Accepted, AuthScheduler.Unbuilt, Normalized,
         Distinct, PoolOf, HasTop, AuthScheduler.Prepared, AuthScheduler.Showing, Chooses, Turned;
    ghost var order, model := Normalized(providers), Canonical(request.model);
    ghost var start := Cursor(s.mixedCursors, order, model);
    ghost var ks: seq<nat> := [];
    served := [];
    while |served| < |times|
      invariant s.Valid() && fresh(s.Repr - old(s.Repr)) && s.known == old(s.known) && s.strategy == RoundRobin
      invariant |ks| == |served| <= |times| && (|served| < |times| ==> s.clock <= times[|served|])
      invariant ks + Turns(mask, Cursor(s.mixedCursors, order, model), |times| - |served|) == Turns(mask, start, |times|)
      invariant |mask| == |order| && forall j :: 0 <= j < |ks| ==> ks[j] < |order| && served[j] == order[ks[j]]
    {
      var now := times[|served|];
      ghost var cursor := Cursor(s.mixedCursors, order, model);
      TurnTakenOff(mask, start, |times|, ks, cursor, |times| - |served|);
      ghost var k := Turn(mask, cursor);
      ghost var exact, before := s.Unbuilt(model, {}), s.mixedCursors;
      var r := s.PickMixed(providers, request, now);
      Served(s.known, providers, request, now, mask, exact, before, s.mixedCursors, r);
      served := served + [r.auth.provider];
      ks := ks + [k];
    }
    NoTurnsLeft(mask, Cursor(s.mixedCursors, order, model));
    RoundVisitsAll(mask, start, ks);
    NormalizedIsDistinct(providers);
    ProvidersOf(order, mask, ks, served);
    MarkedOnes(PoolOf(s.known, providers, request), model, times[0], order, mask);
  }

  lemma MarkedOnes(pool: Pool, model: ModelName, now: Time, order: seq<string>, mask: seq<bool>)
    requires mask == TopProviders(pool, model, now, order)
    ensures forall p :: (exists i :: 0 <= i < |mask| && mask[i] && order[i] == p) <==> p in order && HasTop(pool, model, now, p)
  {
    hide HasTop;
    forall p | p in order && HasTop(pool, model, now, p) ensures exists i :: 0 <= i < |mask| && mask[i] && order[i] == p {
      var i :| 0 <= i < |order| && order[i] == p;
      assert mask[i];
    }
  }

  ghost function PoolOf(known: Known, providers: seq<string>, request: Request): Pool {
    Candidates(known, Members(Normalized(providers)), request.(model := Canonical(request.model)))
  }

  /** While some provider has a top candidate a pick succeeds, in turn. */
  lemma Served(known: Known, providers: seq<string>, request: Request, now: Time, mask: seq<bool>, exact: bool,
               before: Cursors, after: Cursors, r: Outcome)
    requires var order, model := Normalized(providers), Canonical(request.model);
             && Answers(known, order, request.(model := model), RoundRobin, now, exact, r)
             && TurnOver(known, order, request.(model := model), now, exact, before, after, r)
             && mask == TopProviders(PoolOf(known, providers, request), model, now, order)
    requires AllPunctual(PoolOf(known, providers, request), Canonical(request.model)) && Accepted(mask) > 0
    ensures var order, model := Normalized(providers), Canonical(request.model);
            var k := Turn(mask, Cursor(before, order, model));
            r.Picked? && k < |order| && r.auth.provider == order[k] && Cursor(after, order, model) == k + 1
  {
    hide Candidates, AllPunctual, Accepted, IsTop, Turn;
    SomeAccepted(mask);
    var i :| 0 <= i < |mask| && mask[i];
    var pool, model := PoolOf(known, providers, request), Canonical(request.model);
    assert HasTop(pool, model, now, Normalized(providers)[i]);
    TopIsFree(pool, model, now, Normalized(providers)[i]);
  }

  lemma TopIsFree(pool: Pool, model: ModelName, now: Time, provider: string)
    requires HasTop(pool, model, now, provider)
    ensures FreeIds(pool, model, now) != {}
  {
  }

  lemma ProvidersOf(order: seq<string>, mask: seq<bool>, ks: seq<nat>, served: seq<string>)
    requires Distinct(order) && Distinct(ks) && |served| == |ks| && |mask| == |order|
    requires forall k: nat :: k in ks <==> k < |mask| && mask[k]
    requires forall j :: 0 <= j < |ks| ==> ks[j] < |order| && served[j] == order[ks[j]]
    ensures Distinct(served) && forall p :: p in served <==> exists i :: 0 <= i < |mask| && mask[i] && order[i] == p
  {
    forall p ensures p in served <==> exists i :: 0 <= i < |mask| && mask[i] && order[i] == p {
      if p in served {
        var j :| 0 <= j < |served| && served[j] == p;
        assert ks[j] in ks;
      }
      if i: nat :| i < |mask| && mask[i] && order[i] == p {
        assert i in ks;
        var j :| 0 <= j < |ks| && ks[j] == i;
        assert served[j] == p;
      }
    }
  }
}
