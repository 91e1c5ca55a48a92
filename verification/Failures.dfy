/** Failure accounting (conductor_result.go, conductor_result_helpers.go): what a result
    does to a credential's model states, and how these add up to the credential's own. */
module Failures {
  import opened Credentials
  import opened Ordering

  type States = map<ModelName, ModelState>

  const FRESH := ModelState(Active, false, 0, None, NO_QUOTA)

  /** A reported outcome; without a model it is about the credential as a whole. */
  datatype Result = Result(authID: string, model: ModelName, success: bool, error: Option<Failure>, retryAfter: Option<nat>)

  function StatusCode(error: Option<Failure>): int {
    if error.Some? then error.value.httpStatus else 0
  }

  function CoolingDisabled(auth: Auth, global: bool): bool {
    if auth.coolingOverride.Some? then auth.coolingOverride.value else global
  }

  // ----- aggregation

  /** A retry time that has come is forgotten. */
  function Lapsed(state: ModelState, now: Time): ModelState {
    if !state.status.Disabled? && state.unavailable && 0 < state.nextRetryAfter <= now then
      state.(unavailable := false, nextRetryAfter := 0)
    else state
  }

  function AllLapsed(states: States, now: Time): States {
    map model | model in states :: Lapsed(states[model], now)
  }

  predicate Waits(state: ModelState, now: Time) {
    !state.status.Disabled? && state.unavailable && state.nextRetryAfter > now
  }

  /** Whether the model is blocked by its own state. */
  predicate Down(state: ModelState, now: Time) {
    state.status.Disabled? || Waits(state, now)
  }

  predicate AllDown(states: States, now: Time) {
    forall model :: model in states ==> Down(states[model], now)
  }

  ghost predicate IsEarliestRetry(states: States, now: Time, at: Time) {
    && (forall model :: model in states && Waits(states[model], now) ==> 0 < at <= states[model].nextRetryAfter)
    && (at == 0 || exists model :: model in states && Waits(states[model], now) && at == states[model].nextRetryAfter)
  }

  predicate Recovers(state: ModelState) {
    state.quota.exceeded && state.quota.nextRecoverAt > 0
  }

  ghost predicate IsEarliestRecovery(states: States, at: Time) {
    && (forall model :: model in states && Recovers(states[model]) ==> 0 < at <= states[model].quota.nextRecoverAt)
    && (at == 0 || exists model :: model in states && Recovers(states[model]) && at == states[model].quota.nextRecoverAt)
  }

  ghost predicate IsTopLevel(states: States, level: int) {
    && level >= 0
    && (forall model :: model in states && states[model].quota.exceeded ==> states[model].quota.backoffLevel <= level)
    && (level == 0 || exists model :: model in states && states[model].quota.exceeded && states[model].quota.backoffLevel == level)
  }

  predicate AnyExceeded(states: States) {
    exists model :: model in states && states[model].quota.exceeded
  }

  /** What updateAggregatedAvailability makes of a credential that tracks models. */
  ghost predicate IsAggregate(before: Auth, after: Auth, now: Time) {
    var states := before.modelStates;
    && after == before.(unavailable := after.unavailable, nextRetryAfter := after.nextRetryAfter,
                        quota := after.quota, modelStates := AllLapsed(states, now))
    && (after.unavailable <==> AllDown(states, now))
    && (if after.unavailable then IsEarliestRetry(states, now, after.nextRetryAfter) else after.nextRetryAfter == 0)
    && (if AnyExceeded(states) then
          && after.quota.exceeded
          && IsEarliestRecovery(states, after.quota.nextRecoverAt)
          && IsTopLevel(states, after.quota.backoffLevel)
        else after.quota == NO_QUOTA)
  }

  /** The order in which the models are visited does not matter. */
  lemma AggregateUnique(before: Auth, after: Auth, other: Auth, now: Time)
    requires IsAggregate(before, after, now) && IsAggregate(before, other, now)
    ensures after == other
  {
  }

  /** The running values over the states visited so far. */
  ghost predicate SoFar(seen: States, now: Time, lapsed: States, all: bool, retry: Time, exceeded: bool, recover: Time, level: int) {
    && lapsed == AllLapsed(seen, now)
    && (all <==> AllDown(seen, now))
    && IsEarliestRetry(seen, now, retry)
    && (exceeded <==> AnyExceeded(seen))
    && IsEarliestRecovery(seen, recover)
    && IsTopLevel(seen, level)
  }

  lemma NothingSeen(now: Time)
    ensures SoFar(map[], now, map[], true, 0, false, 0, 0)
  {
  }

  function Restricted(states: States, models: set<ModelName>): States {
    map model | model in states && model in models :: states[model]
  }

  lemma RetryOfOneMore(seen: States, now: Time, retry: Time, model: ModelName, state: ModelState)
    requires IsEarliestRetry(seen, now, retry) && model !in seen
    ensures IsEarliestRetry(seen[model := state], now,
              if Waits(state, now) && (retry == 0 || state.nextRetryAfter < retry) then state.nextRetryAfter else retry)
  {
    var more := seen[model := state];
    assert more[model] == state;
    if m :| m in seen && Waits(seen[m], now) && retry == seen[m].nextRetryAfter {
      assert more[m] == seen[m];
    }
    forall m | m in more && m != model ensures m in seen && more[m] == seen[m] {
    }
  }

  lemma RecoveryOfOneMore(seen: States, recover: Time, model: ModelName, state: ModelState)
    requires IsEarliestRecovery(seen, recover) && model !in seen
    ensures IsEarliestRecovery(seen[model := state],
              if state.quota.exceeded && (recover == 0 || (state.quota.nextRecoverAt != 0 && state.quota.nextRecoverAt < recover))
              then state.quota.nextRecoverAt else recover)
  {
    var more := seen[model := state];
    assert more[model] == state;
    if m :| m in seen && Recovers(seen[m]) && recover == seen[m].quota.nextRecoverAt {
      assert more[m] == seen[m];
    }
    forall m | m in more && m != model ensures m in seen && more[m] == seen[m] {
    }
  }

  lemma LevelOfOneMore(seen: States, level: int, model: ModelName, state: ModelState)
    requires IsTopLevel(seen, level) && model !in seen
    ensures IsTopLevel(seen[model := state],
              if state.quota.exceeded && state.quota.backoffLevel > level then state.quota.backoffLevel else level)
  {
    var more := seen[model := state];
    assert more[model] == state;
    if m :| m in seen && seen[m].quota.exceeded && seen[m].quota.backoffLevel == level {
      assert more[m] == seen[m];
    }
    forall m | m in more && m != model ensures m in seen && more[m] == seen[m] {
    }
  }

  lemma FlagsOfOneMore(seen: States, now: Time, model: ModelName, state: ModelState)
    requires model !in seen
    ensures AllDown(seen[model := state], now) <==> AllDown(seen, now) && Down(state, now)
    ensures AnyExceeded(seen[model := state]) <==> AnyExceeded(seen) || state.quota.exceeded
    ensures AllLapsed(seen[model := state], now) == AllLapsed(seen, now)[model := Lapsed(state, now)]
  {
    var more := seen[model := state];
    assert more[model] == state;
    forall m | m in seen ensures more[m] == seen[m] {
    }
    forall m | m in more && m != model ensures m in seen && more[m] == seen[m] {
    }
  }

  method UpdateAggregatedAvailability(auth: Auth, now: Time) returns (r: Auth)
    ensures if auth.modelStates == map[] then r == auth else IsAggregate(auth, r, now)
  {
    r := auth;
    if |auth.modelStates| == 0 { return; }
    var lapsed, all, retry, exceeded, recover, level := VisitStates(auth.modelStates, now);
    r := r.(modelStates := lapsed, unavailable := all);
    if all {
      r := r.(nextRetryAfter := retry);
    } else {
      r := r.(nextRetryAfter := 0);
    }
    if exceeded {
      r := r.(quota := Quota(true, recover, level));
    } else {
      r := r.(quota := Quota(false, 0, 0));
    }
  }

  method VisitStates(states: States, now: Time)
    returns (lapsed: States, all: bool, retry: Time, exceeded: bool, recover: Time, level: int)
    ensures SoFar(states, now, lapsed, all, retry, exceeded, recover, level)
  {
    hide AllDown, AllLapsed, IsEarliestRetry, IsEarliestRecovery, IsTopLevel, AnyExceeded;
    lapsed, all, retry, exceeded, recover, level := map[], true, 0, false, 0, 0;
    var todo := states.Keys;
    ghost var seen: States := map[];
    NothingSeen(now);
    while todo != {}
      invariant todo <= states.Keys && seen == Restricted(states, states.Keys - todo)
      invariant SoFar(seen, now, lapsed, all, retry, exceeded, recover, level)
    {
      ghost var some := Witness(todo);
      var model :| model in todo;
      var state := states[model];
      RetryOfOneMore(seen, now, retry, model, state);
      RecoveryOfOneMore(seen, recover, model, state);
      LevelOfOneMore(seen, level, model, state);
      FlagsOfOneMore(seen, now, model, state);
      var stateUnavailable := false;
      var kept := state;
      if state.status.Disabled? {
        stateUnavailable := true;
      } else if state.unavailable {
        if state.nextRetryAfter == 0 {
          stateUnavailable := false;
        } else if state.nextRetryAfter > now {
          stateUnavailable := true;
          if retry == 0 || state.nextRetryAfter < retry {
            retry := state.nextRetryAfter;
          }
        } else {
          kept := state.(unavailable := false, nextRetryAfter := 0);
        }
      }
      if !stateUnavailable { all := false; }
      if state.quota.exceeded {
        exceeded := true;
        if recover == 0 || (state.quota.nextRecoverAt != 0 && state.quota.nextRecoverAt < recover) {
          recover := state.quota.nextRecoverAt;
        }
        if state.quota.backoffLevel > level {
          level := state.quota.backoffLevel;
        }
      }
      lapsed := lapsed[model := kept];
      seen := seen[model := state];
      todo := todo - {model};
    }
    assert seen == states;
  }

  /** From an aggregation on, and until the next, the credential as a whole is blocked
      exactly while every tracked model is, unless all of them are switched off: then the
      credential counts as free. */
  lemma AggregateAgrees(before: Auth, after: Auth, now: Time)
    requires IsAggregate(before, after, now) && before.modelStates != map[] && !before.disabled && !before.status.Disabled?
    ensures (forall t: Time | t >= now :: IsBlocked(after, NO_MODEL, t).blocked <==> AllDown(after.modelStates, t))
            <==> exists model :: model in before.modelStates && !before.modelStates[model].status.Disabled?
  {
    var states := before.modelStates;
    if model :| model in states && !states[model].status.Disabled? {
      forall t: Time | t >= now ensures IsBlocked(after, NO_MODEL, t).blocked <==> AllDown(after.modelStates, t) {
        BlockedTogether(before, after, now, model, t);
      }
    } else {
      var some :| some in states;
      assert AllDown(after.modelStates, now);
      assert !IsBlocked(after, NO_MODEL, now).blocked by {
        assert forall m :: m in states ==> !Waits(states[m], now);
      }
    }
  }

  lemma BlockedTogether(before: Auth, after: Auth, now: Time, model: ModelName, t: Time)
    requires IsAggregate(before, after, now) && !before.disabled && !before.status.Disabled?
    requires model in before.modelStates && !before.modelStates[model].status.Disabled? && t >= now
    ensures IsBlocked(after, NO_MODEL, t).blocked <==> AllDown(after.modelStates, t)
  {
    var states := before.modelStates;
    if after.unavailable {
      assert Waits(states[model], now);
      var first :| first in states && Waits(states[first], now) && after.nextRetryAfter == states[first].nextRetryAfter;
      assert Down(after.modelStates[first], t) <==> t < after.nextRetryAfter;
    } else {
      var up :| up in states && !Down(states[up], now);
      assert !Down(after.modelStates[up], t);
    }
  }

  /** A tracked model's own state is what the block rule consults for it. */
  lemma DownIsBlocked(auth: Auth, model: ModelName, t: Time)
    requires model in auth.modelStates && model != NO_MODEL && !auth.disabled && !auth.status.Disabled?
    ensures IsBlocked(auth, model, t).blocked <==> Down(auth.modelStates[model], t)
  {
  }

  /** The aggregate is punctual exactly when it does not wait, when no quota recovers, or
      when some recovering quota does so no later than the first model that waits. */
  lemma AggregatePunctualExactly(before: Auth, after: Auth, now: Time)
    requires IsAggregate(before, after, now) && !before.disabled && !before.status.Disabled?
    ensures var states := before.modelStates;
            Punctual(after, NO_MODEL) <==>
              || !AllDown(states, now)
              || (forall model :: model in states ==> !Waits(states[model], now))
              || (forall model :: model in states ==> !Recovers(states[model]))
              || exists model :: model in states && Recovers(states[model]) &&
                   forall other :: other in states && Waits(states[other], now) ==>
                     states[model].quota.nextRecoverAt <= states[other].nextRetryAfter
  {
    var states := before.modelStates;
    if !AnyExceeded(states) {
      assert forall model :: model in states ==> !Recovers(states[model]);
    }
  }

  /** Two models that fail for different lengths of time: the credential as a whole is
      free before its quota is said to recover. */
  lemma AggregateNeedNotBePunctual()
    ensures exists before: Auth, after: Auth, now: Time ::
      && IsAggregate(before, after, now) && !Punctual(after, NO_MODEL)
      && forall m :: m in before.modelStates && m != NO_MODEL ==> Punctual(before, m)
  {
    var m, n := ModelName("m", ""), ModelName("n", "");
    var states := map[m := ModelState(Status.Error, true, 100, None, Quota(true, 100, 0)),
                      n := ModelState(Status.Error, true, 10, None, NO_QUOTA)];
    var before := Auth("a", "p", 0, false, false, Status.Error, false, 0, NO_QUOTA, None, None, None, states);
    var after := before.(unavailable := true, nextRetryAfter := 10, quota := Quota(true, 100, 0));
    assert AllLapsed(states, 1) == states;
    assert Waits(states[n], 1) && Waits(states[m], 1) && Recovers(states[m]);
    assert IsAggregate(before, after, 1);
  }
}
