/** Credential snapshots (sdk/cockpit/auth/types.go) and the clock-dependent block
    rule that every selector applies to them (sdk/cockpit/auth/selector.go). */
module Credentials {

  datatype Option<+T> = None | Some(value: T)

  /** Instants and durations in nanoseconds; the instant 0 is Go's unset time. */
  type Time = nat

  /** A requested model: its base name, and its raw thinking suffix or "" without one. */
  datatype ModelName = ModelName(base: string, suffix: string)

  const NO_MODEL := ModelName("", "")

  /** canonicalModelKey: drop the suffix unless nothing would remain. */
  function Canonical(model: ModelName): ModelName {
    if model.base == "" then model else ModelName(model.base, "")
  }

  datatype Status = Unknown | Active | Pending | Refreshing | Error | Disabled

  datatype Failure = Failure(httpStatus: int, message: string)

  datatype Quota = Quota(exceeded: bool, nextRecoverAt: Time, backoffLevel: int)

  const NO_QUOTA := Quota(false, 0, 0)

  datatype ModelState = ModelState(
    status: Status,
    unavailable: bool,
    nextRetryAfter: Time,
    lastError: Option<Failure>,
    quota: Quota)

  datatype Auth = Auth(
    id: string,
    provider: string,
    priority: int,
    websockets: bool,
    disabled: bool,
    status: Status,
    unavailable: bool,
    nextRetryAfter: Time,
    quota: Quota,
    lastError: Option<Failure>,
    coolingOverride: Option<bool>,
    retryOverride: Option<int>,
    modelStates: map<ModelName, ModelState>)

  datatype BlockReason = NotBlocked | Cooldown | Off | Other

  datatype Verdict = Verdict(blocked: bool, reason: BlockReason, next: Time)

  const FREE := Verdict(false, NotBlocked, 0)

  const SWITCHED_OFF := Verdict(true, Off, 0)

  /** The state consulted for a model: its own entry, else the entry of its base name. */
  function StateFor(auth: Auth, model: ModelName): Option<ModelState> {
    if model in auth.modelStates then
      Some(auth.modelStates[model])
    else
      var base := Canonical(model);
      if base != NO_MODEL && base != model && base in auth.modelStates then Some(auth.modelStates[base]) else None
  }

  /** Both timed branches: a retry time ahead of `now` blocks, and the quota recovery
      time, when it is ahead too, replaces it as the time to look again. */
  function Timed(retryAfter: Time, quota: Quota, now: Time): Verdict {
    if retryAfter > now then
      Verdict(true,
              if quota.exceeded then Cooldown else Other,
              if quota.nextRecoverAt > now then quota.nextRecoverAt else retryAfter)
    else
      FREE
  }

  /** isAuthBlockedForModel. */
  function IsBlocked(auth: Auth, model: ModelName, now: Time): Verdict {
    if auth.disabled || auth.status.Disabled? then
      SWITCHED_OFF
    else if model != NO_MODEL then
      match StateFor(auth, model)
      case None => FREE
      case Some(state) =>
        if state.status.Disabled? then SWITCHED_OFF
        else if state.unavailable then Timed(state.nextRetryAfter, state.quota, now)
        else FREE
    else if auth.unavailable then
      Timed(auth.nextRetryAfter, auth.quota, now)
    else
      FREE
  }

  /** On one snapshot time only ever unblocks. */
  lemma BlockedOnlyClears(auth: Auth, model: ModelName, t: Time, u: Time)
    requires t <= u && !IsBlocked(auth, model, t).blocked
    ensures !IsBlocked(auth, model, u).blocked
  {
  }

  // ----- what an index keeps of a verdict

  /** A snapshot with the models the registry listed for it when it was indexed. */
  datatype Meta = Meta(auth: Auth, supported: set<ModelName>)

  predicate Supports(meta: Meta, model: ModelName) {
    Canonical(model) == NO_MODEL || Canonical(model) in meta.supported
  }

  datatype EntryState = Ready | Cooling | Waiting | SwitchedOff

  /** One credential in a model shard: scheduledAuth. */
  datatype Entry = Entry(meta: Meta, state: EntryState, nextRetryAt: Time)

  function StateOf(v: Verdict): EntryState {
    if !v.blocked then Ready
    else match v.reason
      case Cooldown => Cooling
      case Off => SwitchedOff
      case _ => Waiting
  }

  function RetryOf(v: Verdict): Time {
    if v.blocked && !v.reason.Off? then v.next else 0
  }

  function Evaluate(meta: Meta, model: ModelName, now: Time): Entry {
    var v := IsBlocked(meta.auth, model, now);
    Entry(meta, StateOf(v), RetryOf(v))
  }

  /** The entry says what the block rule said at some instant up to `clock`. */
  ghost predicate Faithful(e: Entry, model: ModelName, clock: Time) {
    exists t: Time :: t <= clock && e == Evaluate(e.meta, model, t)
  }

  predicate OnHold(e: Entry) {
    e.state == Cooling || e.state == Waiting
  }

  /** promoteExpiredLocked on one entry. */
  function Promote(e: Entry, model: ModelName, now: Time): Entry {
    if OnHold(e) && e.nextRetryAt != 0 && e.nextRetryAt <= now then Evaluate(e.meta, model, now) else e
  }

  /** A held-back entry carries a retry time later than its evaluation. */
  lemma HeldHasFutureRetry(meta: Meta, model: ModelName, t: Time)
    requires OnHold(Evaluate(meta, model, t))
    ensures Evaluate(meta, model, t).nextRetryAt > t
  {
  }

  /** Whatever an index calls ready is free, from its evaluation on. */
  lemma ReadyStaysFree(e: Entry, model: ModelName, clock: Time)
    requires Faithful(e, model, clock) && e.state == Ready
    ensures !IsBlocked(e.meta.auth, model, clock).blocked
  {
  }

  /** The quota never recovers after the retry time. MarkResult writes both from one
      value; the aggregate of several models need not. */
  predicate Punctual(auth: Auth, model: ModelName) {
    if auth.disabled || auth.status.Disabled? then
      true
    else if model != NO_MODEL then
      match StateFor(auth, model)
      case None => true
      case Some(s) =>
        s.status.Disabled? || !s.unavailable || s.nextRetryAfter == 0 || s.quota.nextRecoverAt <= s.nextRetryAfter
    else
      !auth.unavailable || auth.nextRetryAfter == 0 || auth.quota.nextRecoverAt <= auth.nextRetryAfter
  }

  /** Promotion by clock says what a fresh evaluation says, whenever the entry was
      last evaluated, exactly for the punctual snapshots. */
  lemma PromotionIsExact(meta: Meta, model: ModelName)
    ensures Punctual(meta.auth, model) <==>
            forall t: Time, u: Time | t <= u :: Promote(Evaluate(meta, model, t), model, u) == Evaluate(meta, model, u)
  {
    if !Punctual(meta.auth, model) {
      var n := if model != NO_MODEL then StateFor(meta.auth, model).value.nextRetryAfter else meta.auth.nextRetryAfter;
      assert Evaluate(meta, model, 0).nextRetryAt > n;
      assert Promote(Evaluate(meta, model, 0), model, n) != Evaluate(meta, model, n);
    }
  }

  lemma PromotedIsFresh(e: Entry, model: ModelName, now: Time)
    requires Faithful(e, model, now) && Punctual(e.meta.auth, model)
    ensures Promote(e, model, now) == Evaluate(e.meta, model, now)
  {
    PromotionIsExact(e.meta, model);
  }

  /** Whether both times that may hold the credential back have passed: the retry time,
      and, where there is one, the recovery time of the quota. */
  predicate IsDue(auth: Auth, model: ModelName, now: Time) {
    && !IsBlocked(auth, model, now).blocked
    && if model != NO_MODEL then
         match StateFor(auth, model)
         case None => true
         case Some(state) => state.unavailable && state.nextRetryAfter > 0 ==> state.quota.nextRecoverAt <= now
       else
         auth.unavailable && auth.nextRetryAfter > 0 ==> auth.quota.nextRecoverAt <= now
  }

  /** No wake-up is lost, and none comes early: an entry is ready after a promotion,
      whenever it was last evaluated, exactly when its snapshot is due, and only when the
      snapshot is free. */
  lemma DueIsReady(meta: Meta, model: ModelName, now: Time)
    ensures IsDue(meta.auth, model, now) <==>
            forall t: Time | t <= now :: Promote(Evaluate(meta, model, t), model, now).state == Ready
    ensures !IsBlocked(meta.auth, model, now).blocked <==>
            exists t: Time | t <= now :: Promote(Evaluate(meta, model, t), model, now).state == Ready
  {
    if !IsBlocked(meta.auth, model, now).blocked {
      assert Promote(Evaluate(meta, model, now), model, now).state == Ready;
    }
    if !IsDue(meta.auth, model, now) {
      assert Promote(Evaluate(meta, model, 0), model, now).state != Ready;
    }
  }

  lemma PromotedWhenDue(e: Entry, model: ModelName, now: Time)
    requires Faithful(e, model, now) && IsDue(e.meta.auth, model, now)
    ensures Promote(e, model, now).state == Ready
  {
    DueIsReady(e.meta, model, now);
  }

  /** For a punctual snapshot that is when it is free. */
  lemma PunctualIsDue(auth: Auth, model: ModelName, now: Time)
    requires Punctual(auth, model)
    ensures IsDue(auth, model, now) <==> !IsBlocked(auth, model, now).blocked
  {
  }

  /** A snapshot the index holds back longer than the rescan: free from instant 5 on,
      evaluated at 1 it is only looked at again at instant 9. */
  lemma LateQuotaIsHeldBack()
    ensures
      var state := ModelState(Error, true, 5, None, Quota(true, 9, 0));
      var model := ModelName("m", "");
      var auth := Auth("a", "p", 0, false, false, Active, false, 0, NO_QUOTA, None, None, None, map[model := state]);
      var e := Promote(Evaluate(Meta(auth, {model}), model, 1), model, 7);
      e.state == Cooling && !IsBlocked(auth, model, 7).blocked
  {
  }
}
