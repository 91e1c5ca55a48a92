/** Which models the registry offers (internal/registry/model_registry_queries.go), and
    for how long an answer stays the answer. */
module RegistryAvailability {
  import opened Credentials
  import opened RegistryState
  import opened RegistryListing

  /** modelQuotaExceededWindow: 5 minutes. */
  const QUOTA_WINDOW: Time := 300_000_000_000

  /** strings.EqualFold(reason, "quota"); none of these letters folds outside ASCII. */
  predicate IsCooldown(reason: string) {
    && |reason| == 5
    && reason[0] in {'q', 'Q'} && reason[1] in {'u', 'U'} && reason[2] in {'o', 'O'}
    && reason[3] in {'t', 'T'} && reason[4] in {'a', 'A'}
  }

  /** The clients whose quota has not recovered yet. */
  function OverQuota(reg: Registration, now: Time): set<string> {
    set client | client in reg.quota && now < reg.quota[client] + QUOTA_WINDOW
  }

  function InCooldown(reg: Registration): set<string> {
    set client | client in reg.suspended && IsCooldown(reg.suspended[client])
  }

  /** Suspended for another reason than quota. */
  function Barred(reg: Registration): set<string> {
    set client | client in reg.suspended && !IsCooldown(reg.suspended[client])
  }

  /** The counting rule of buildAvailableModelsLocked. */
  predicate Offered(count: int, expired: nat, cooldown: nat, other: nat) {
    var effective := if count - expired - other < 0 then 0 else count - expired - other;
    effective > 0 || (count > 0 && (expired > 0 || cooldown > 0) && other == 0)
  }

  predicate Available(reg: Registration, now: Time) {
    Offered(reg.count, |OverQuota(reg, now)|, |InCooldown(reg)|, |Barred(reg)|)
  }

  /** A model is offered exactly when no client of it is barred, or when more clients list
      it than are over quota or barred: quota alone, however exhausted, never hides a
      model, and a cooldown suspension decides nothing. */
  lemma AvailabilityRule(reg: Registration, now: Time)
    requires reg.count > 0
    ensures Available(reg, now) <==> Barred(reg) == {} || |OverQuota(reg, now)| + |Barred(reg)| < reg.count
  {
  }

  /** A list entry in the format of one API. */
  datatype Rendered = Rendered(handler: string, info: ModelInfo)

  ghost function Sources(models: Models, info: ModelInfo, now: Time): set<string> {
    set id | id in models && models[id].info == info && Available(models[id], now)
  }

  /** `list` holds, in any order, one entry for every offered model and nothing else. */
  ghost predicate Answer(list: seq<Rendered>, handler: string, models: Models, now: Time) {
    forall entry :: multiset(list)[entry] == if entry.handler == handler then |Sources(models, entry.info, now)| else 0
  }

  /** Two answers to the same question differ in order only. */
  lemma AnswersAgree(list: seq<Rendered>, other: seq<Rendered>, handler: string, models: Models, now: Time)
    requires Answer(list, handler, models, now)
    ensures Answer(other, handler, models, now) <==> multiset(list) == multiset(other)
  {
  }

  /** No recovery that is still to come at `now` is before `at`; 0 is no recovery at all. */
  predicate NothingRecoversBefore(models: Models, at: Time, now: Time) {
    forall id, client :: id in models && client in models[id].quota && now < models[id].quota[client] + QUOTA_WINDOW ==>
      0 < at <= models[id].quota[client] + QUOTA_WINDOW
  }

  /** `at` is the first recovery still to come at `now`, or 0 where there is none. */
  ghost predicate IsFirstRecovery(models: Models, at: Time, now: Time) {
    && NothingRecoversBefore(models, at, now)
    && (at == 0 || exists id, client :: id in models && client in OverQuota(models[id], now) && at == models[id].quota[client] + QUOTA_WINDOW)
  }

  lemma SameOverQuota(models: Models, id: string, at: Time, now: Time, later: Time)
    requires NothingRecoversBefore(models, at, now) && id in models && now <= later && (at == 0 || later < at)
    ensures OverQuota(models[id], later) == OverQuota(models[id], now)
  {
  }

  /** An answer stays the answer until the first recovery. */
  lemma AnswerHolds(list: seq<Rendered>, handler: string, models: Models, at: Time, now: Time, later: Time)
    requires Answer(list, handler, models, now) && NothingRecoversBefore(models, at, now)
    requires now <= later && (at == 0 || later < at)
    ensures Answer(list, handler, models, later)
  {
    forall info ensures Sources(models, info, later) == Sources(models, info, now) {
      forall id | id in models ensures OverQuota(models[id], later) == OverQuota(models[id], now) {
        SameOverQuota(models, id, at, now, later);
      }
    }
    hide Sources;
  }

  /** CleanupExpiredQuotas on one registration. */
  function Cleaned(reg: Registration, now: Time): Registration {
    reg.(quota := map client | client in reg.quota && now < reg.quota[client] + QUOTA_WINDOW :: reg.quota[client])
  }

  function CleanedAll(models: Models, now: Time): Models {
    map id | id in models :: Cleaned(models[id], now)
  }

  /** Cleaning up changes no later answer. */
  lemma CleanupIsInvisible(list: seq<Rendered>, handler: string, models: Models, now: Time, later: Time)
    requires now <= later
    ensures Answer(list, handler, models, later) <==> Answer(list, handler, CleanedAll(models, now), later)
  {
    forall info ensures Sources(models, info, later) == Sources(CleanedAll(models, now), info, later) {
      forall id | id in models ensures OverQuota(Cleaned(models[id], now), later) == OverQuota(models[id], later) {
      }
    }
    hide Sources;
  }

  /** Marking and cleaning leave the counters alone. */
  lemma MarksAreNotCounted(s: State, models: Models)
    requires CountersTrue(s) && models.Keys == s.models.Keys
    requires forall id :: id in models ==>
      models[id] == s.models[id].(quota := models[id].quota, suspended := models[id].suspended)
    ensures CountersTrue(s.(models := models))
  {
    var t := s.(models := models);
    forall id ensures Counted(Lookup(t.models, id), Total(t, id), Of(t, id)) {
      assert Counted(Lookup(s.models, id), Total(s, id), Of(s, id));
      assert Of(t, id) == Of(s, id) by {
        assert forall p :: Of(t, id)(p) == Of(s, id)(p);
      }
    }
  }
}
