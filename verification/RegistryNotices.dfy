/** Results and the model registry: which models are offered after what upstream has
    answered (conductor_result.go, model_registry_state.go, model_registry_queries.go). */
module RegistryNotices {
  import opened Credentials
  import opened Failures
  import opened Results
  import Ordering
  import opened RegistryState
  import opened RegistryListing
  import opened RegistryAvailability
  import opened RegistryRuns

  /** A result about one model, and when the registry is told of it. */
  datatype Told = Told(client: string, result: Result, now: Time)

  /** What MarkResult does with its notice. */
  function EventsOf(t: Told, id: string): seq<Event> {
    match NoticeOf(t.result)
    case Silence => []
    case Resume => [Event(t.now, ClearQuota(t.client, id)), Event(t.now, Step.Resume(t.client, id))]
    case Suspend(reason, overQuota) =>
      (if overQuota then [Event(t.now, SetQuota(t.client, id))] else []) + [Event(t.now, Step.Suspend(t.client, id, reason))]
  }

  function AllEvents(told: seq<Told>, id: string): seq<Event> {
    if told == [] then [] else AllEvents(told[..|told| - 1], id) + EventsOf(told[|told| - 1], id)
  }

  // ----- what the answers say

  /** The status code that the client is out for: of its first answer since its last
      success that is a refusal; 0 if there is none. */
  function OutFor(told: seq<Told>, client: string): int {
    if told == [] then 0
    else
      var before, t := OutFor(told[..|told| - 1], client), told[|told| - 1];
      if t.client != client then before
      else if t.result.success then 0
      else if before != 0 || StatusCode(t.result.error) !in {401, 402, 403, 404, 429} then before
      else StatusCode(t.result.error)
  }

  /** When the client last ran into its quota since its last success. */
  function ExhaustedAt(told: seq<Told>, client: string): Option<Time> {
    if told == [] then None
    else
      var before, t := ExhaustedAt(told[..|told| - 1], client), told[|told| - 1];
      if t.client != client then before
      else if t.result.success then None
      else if StatusCode(t.result.error) == 429 then Some(t.now)
      else before
  }

  function Clients(told: seq<Told>): set<string> {
    set t | t in told :: t.client
  }

  /** Clients out for another reason than quota: 401, 402, 403 or 404. */
  function Refused(told: seq<Told>): set<string> {
    set client | client in Clients(told) && OutFor(told, client) in {401, 402, 403, 404}
  }

  /** Clients whose quota ran out less than 5 minutes ago. */
  function Exhausted(told: seq<Told>, now: Time): set<string> {
    set client | client in Clients(told) && ExhaustedAt(told, client).Some? &&
                 now < ExhaustedAt(told, client).value + 300_000_000_000
  }

  // ----- what the registry makes of them

  /** The reason a failure gives is a cooldown exactly when the quota is exhausted, which
      alone is marked as such. */
  lemma CooldownIsQuota(result: Result)
    ensures NoticeOf(result).Suspend? ==>
              && (IsCooldown(NoticeOf(result).reason) <==> StatusCode(result.error) == 429)
              && (NoticeOf(result).overQuota <==> StatusCode(result.error) == 429)
    ensures NoticeOf(result).Suspend? <==>
              result.model != NO_MODEL && !result.success && StatusCode(result.error) in {401, 402, 403, 404, 429}
    ensures NoticeOf(result).Resume? <==> result.model != NO_MODEL && result.success
  {
    assert "quota"[0] == 'q' && |"quota"| == 5 && "quota"[1] == 'u' && "quota"[2] == 'o' && "quota"[3] == 't' && "quota"[4] == 'a';
    assert |"unauthorized"| == 12 && |"payment_required"| == 16 && |"not_found"| == 9;
  }

  function AfterFrom(s: State, events: seq<Event>): State {
    if events == [] then s else StateAfter(AfterFrom(s, events[..|events| - 1]), events[|events| - 1])
  }

  lemma {:induction false} AfterBoth(setup: seq<Event>, events: seq<Event>)
    ensures AfterAll(setup + events) == AfterFrom(AfterAll(setup), events)
    decreases |events|
  {
    hide StateAfter;
    if events == [] {
      assert setup + events == setup;
    } else {
      AfterBoth(setup, events[..|events| - 1]);
      assert (setup + events)[..|setup + events| - 1] == setup + events[..|events| - 1];
    }
  }

  lemma AfterMore(s: State, events: seq<Event>, e: Event)
    ensures AfterFrom(s, events + [e]) == StateAfter(AfterFrom(s, events), e)
  {
    assert (events + [e])[..|events|] == events;
  }

  /** The marks on a model are those that the answers call for. */
  ghost predicate MarksSay(reg: Registration, told: seq<Told>) {
    forall client ::
      && (client in reg.suspended <==> OutFor(told, client) != 0)
      && (client in reg.suspended ==> (IsCooldown(reg.suspended[client]) <==> OutFor(told, client) == 429))
      && (client in reg.quota <==> ExhaustedAt(told, client).Some?)
      && (client in reg.quota ==> reg.quota[client] == ExhaustedAt(told, client).value)
  }

  /** Only the marks of the model have changed. */
  ghost predicate OnlyMarked(s: State, t: State, id: string) {
    && id in s.models && id in t.models
    && t == s.(models := s.models[id := t.models[id]])
    && t.models[id] == s.models[id].(quota := t.models[id].quota, suspended := t.models[id].suspended)
  }

  /** All results are about the model, and name a client. */
  ghost predicate About(told: seq<Told>) {
    forall t :: t in told ==> t.client != "" && t.result.model != NO_MODEL
  }

  lemma {:induction false} MarksAreTold(s: State, told: seq<Told>, id: string)
    requires id != "" && id in s.models && s.models[id].quota == map[] && s.models[id].suspended == map[] && About(told)
    ensures var t := AfterFrom(s, AllEvents(told, id)); OnlyMarked(s, t, id) && MarksSay(t.models[id], told)
  {
    hide StateAfter, EventsOf, MarksSay, OnlyMarked;
    if told == [] {
      NothingTold(s, id);
    } else {
      var before, last := told[..|told| - 1], told[|told| - 1];
      assert last in told;
      MarksAreTold(s, before, id);
      OneMoreTold(s, before, last, id);
      assert before + [last] == told;
    }
  }

  lemma NothingTold(s: State, id: string)
    requires id in s.models && s.models[id].quota == map[] && s.models[id].suspended == map[]
    ensures OnlyMarked(s, s, id) && MarksSay(s.models[id], [])
  {
  }

  lemma OneMoreTold(s: State, before: seq<Told>, t: Told, id: string)
    requires id != "" && t.client != "" && t.result.model != NO_MODEL
    requires var u := AfterFrom(s, AllEvents(before, id)); OnlyMarked(s, u, id) && MarksSay(u.models[id], before)
    ensures var v := AfterFrom(s, AllEvents(before, id) + EventsOf(t, id)); OnlyMarked(s, v, id) && MarksSay(v.models[id], before + [t])
  {
    hide StateAfter, MarksSay, OnlyMarked;
    var events := AllEvents(before, id);
    var u := AfterFrom(s, events);
    CooldownIsQuota(t.result);
    if |EventsOf(t, id)| == 2 {
      var e, f := EventsOf(t, id)[0], EventsOf(t, id)[1];
      assert events + EventsOf(t, id) == events + [e] + [f];
      AfterMore(s, events, e);
      AfterMore(s, events + [e], f);
    } else if |EventsOf(t, id)| == 1 {
      AfterMore(s, events, EventsOf(t, id)[0]);
      assert EventsOf(t, id) == [EventsOf(t, id)[0]];
    } else {
      assert events + EventsOf(t, id) == events;
    }
    MarkedOnce(s, u, before, t, id);
  }

  /** One result in the registry. */
  function Entered(u: State, t: Told, id: string): State {
    match NoticeOf(t.result)
    case Silence => u
    case Resume => StateAfter(StateAfter(u, Event(t.now, ClearQuota(t.client, id))), Event(t.now, Step.Resume(t.client, id)))
    case Suspend(reason, overQuota) =>
      StateAfter(if overQuota then StateAfter(u, Event(t.now, SetQuota(t.client, id))) else u, Event(t.now, Step.Suspend(t.client, id, reason)))
  }

  /** The registration of the model after the result. */
  function EnteredMarks(reg: Registration, t: Told): Registration {
    match NoticeOf(t.result)
    case Silence => reg
    case Resume => reg.(quota := reg.quota - {t.client}, suspended := reg.suspended - {t.client})
    case Suspend(reason, overQuota) =>
      reg.(quota := if overQuota then reg.quota[t.client := t.now] else reg.quota,
           suspended := if t.client in reg.suspended then reg.suspended else reg.suspended[t.client := reason])
  }

  function WithMarks(u: State, id: string, reg: Registration): State {
    u.(models := u.models[id := reg])
  }

  lemma StepHere(u: State, client: string, id: string, reason: string, now: Time)
    requires id != "" && client != "" && id in u.models
    ensures var reg := u.models[id];
            && StateAfter(u, Event(now, ClearQuota(client, id))) == WithMarks(u, id, reg.(quota := reg.quota - {client}))
            && StateAfter(u, Event(now, SetQuota(client, id))) == WithMarks(u, id, reg.(quota := reg.quota[client := now]))
            && StateAfter(u, Event(now, Step.Resume(client, id))) == WithMarks(u, id, reg.(suspended := reg.suspended - {client}))
            && StateAfter(u, Event(now, Step.Suspend(client, id, reason))) ==
                 WithMarks(u, id, reg.(suspended := if client in reg.suspended then reg.suspended else reg.suspended[client := reason]))
  {
  }

  lemma MarkedTwice(u: State, id: string, reg: Registration, reg': Registration)
    ensures WithMarks(WithMarks(u, id, reg), id, reg') == WithMarks(u, id, reg') && WithMarks(u, id, reg).models[id] == reg
    ensures id in u.models ==> WithMarks(u, id, u.models[id]) == u
  {
  }

  lemma EnteredHere(u: State, t: Told, id: string)
    requires id != "" && t.client != "" && id in u.models
    ensures Entered(u, t, id) == WithMarks(u, id, EnteredMarks(u.models[id], t))
  {
    hide NoticeOf, StateAfter;
    var reg := u.models[id];
    var reason := if NoticeOf(t.result).Suspend? then NoticeOf(t.result).reason else "";
    StepHere(u, t.client, id, reason, t.now);
    MarkedTwice(u, id, reg, EnteredMarks(reg, t));
    match NoticeOf(t.result)
    case Silence =>
    case Resume =>
      var first := reg.(quota := reg.quota - {t.client});
      MarkedTwice(u, id, first, EnteredMarks(reg, t));
      StepHere(WithMarks(u, id, first), t.client, id, reason, t.now);
    case Suspend(_, overQuota) =>
      if overQuota {
        var first := reg.(quota := reg.quota[t.client := t.now]);
        MarkedTwice(u, id, first, EnteredMarks(reg, t));
        StepHere(WithMarks(u, id, first), t.client, id, reason, t.now);
      }
  }

  lemma MarkedOnce(s: State, u: State, before: seq<Told>, t: Told, id: string)
    requires id != "" && t.client != "" && t.result.model != NO_MODEL && OnlyMarked(s, u, id) && MarksSay(u.models[id], before)
    ensures OnlyMarked(s, Entered(u, t, id), id) && MarksSay(Entered(u, t, id).models[id], before + [t])
  {
    EnteredHere(u, t, id);
    MarksOneMore(u.models[id], before, t);
    hide MarksSay, NoticeOf, Entered;
    assert Entered(u, t, id).models[id] == EnteredMarks(u.models[id], t);
  }

  lemma MarksOneMore(reg: Registration, before: seq<Told>, t: Told)
    requires t.result.model != NO_MODEL && MarksSay(reg, before)
    ensures MarksSay(EnteredMarks(reg, t), before + [t])
  {
    hide IsCooldown, NoticeOf;
    CooldownIsQuota(t.result);
    assert (before + [t])[..|before|] == before;
  }

  // ----- which models are offered

  lemma BarredAreRefused(reg: Registration, told: seq<Told>, now: Time)
    requires MarksSay(reg, told)
    ensures Barred(reg) == Refused(told) && OverQuota(reg, now) == Exhausted(told, now)
  {
    hide IsCooldown;
    forall client ensures client in Barred(reg) <==> client in Refused(told) {
      OutIsTold(told, client);
    }
    forall client ensures client in OverQuota(reg, now) <==> client in Exhausted(told, now) {
      OutIsTold(told, client);
    }
  }

  lemma {:induction false} OutIsTold(told: seq<Told>, client: string)
    ensures OutFor(told, client) in {0, 401, 402, 403, 404, 429}
    ensures OutFor(told, client) != 0 || ExhaustedAt(told, client).Some? ==> client in Clients(told)
  {
    if told != [] {
      var last := told[|told| - 1];
      OutIsTold(told[..|told| - 1], client);
      assert last in told && last.client in Clients(told);
      assert Clients(told[..|told| - 1]) <= Clients(told);
    }
  }

  /** After any answers about a model that nobody has marked, it is offered exactly when no
      client is refused, or more clients list it than are refused or exhausted. */
  lemma OfferedExactly(setup: seq<Event>, told: seq<Told>, id: string, now: Time)
    requires id != "" && About(told)
    requires var s := AfterAll(setup); CountersTrue(s) && id in s.models && s.models[id].quota == map[] && s.models[id].suspended == map[]
    ensures var t := AfterAll(setup + AllEvents(told, id));
            && id in t.models
            && (Available(t.models[id], now) <==>
                  Refused(told) == {} || |Exhausted(told, now)| + |Refused(told)| < Total(AfterAll(setup), id))
  {
    hide AfterAll, Available, Barred, OverQuota, Refused, Exhausted, MarksSay, AfterFrom;
    var s := AfterAll(setup);
    AfterBoth(setup, AllEvents(told, id));
    MarksAreTold(s, told, id);
    var t := AfterFrom(s, AllEvents(told, id));
    CountIsTotal(s, id);
    BarredAreRefused(t.models[id], told, now);
    AvailabilityRule(t.models[id], now);
  }

  lemma CountIsTotal(s: State, id: string)
    requires CountersTrue(s) && id in s.models
    ensures s.models[id].count == Total(s, id) > 0
  {
    assert Counted(Lookup(s.models, id), Total(s, id), Of(s, id));
  }

  /** Quota alone never hides a model, however many clients run into it. */
  lemma QuotaNeverHides(told: seq<Told>)
    requires forall t :: t in told && !t.result.success ==> StatusCode(t.result.error) !in {401, 402, 403, 404}
    ensures Refused(told) == {}
  {
    forall client ensures OutFor(told, client) in {0, 429} {
      OnlyQuota(told, client);
    }
  }

  lemma {:induction false} OnlyQuota(told: seq<Told>, client: string)
    requires forall t :: t in told && !t.result.success ==> StatusCode(t.result.error) !in {401, 402, 403, 404}
    ensures OutFor(told, client) in {0, 429}
  {
    if told != [] {
      assert told[|told| - 1] in told;
      OnlyQuota(told[..|told| - 1], client);
    }
  }

  function Listers(lists: Lists, id: string): set<string> {
    set client | client in lists && id in lists[client]
  }

  /** With each client listing the model at most once, the listings are the listers. */
  lemma {:induction false} ListersCounted(lists: Lists, id: string)
    requires forall client :: client in lists ==> multiset(lists[client])[id] <= 1
    ensures Listing(lists)[id] == |Listers(lists, id)|
    decreases |lists|
  {
    if lists == map[] {
      assert Listers(lists, id) == {};
    } else {
      var client :| client in lists;
      ListingSplit(lists, client);
      ListersCounted(lists - {client}, id);
      hide Listing;
      OneLister(lists, client, id);
    }
  }

  lemma OneLister(lists: Lists, client: string, id: string)
    requires client in lists && multiset(lists[client])[id] <= 1
    ensures |Listers(lists, id)| == |Listers(lists - {client}, id)| + multiset(lists[client])[id]
  {
    assert id in lists[client] <==> id in multiset(lists[client]);
    if id in lists[client] {
      assert Listers(lists, id) == Listers(lists - {client}, id) + {client};
    } else {
      assert Listers(lists, id) == Listers(lists - {client}, id);
    }
  }

  /** A model is hidden once all clients that list it, each of them once, are refused. */
  lemma AllRefusedHides(setup: seq<Event>, told: seq<Told>, id: string, now: Time)
    requires id != "" && About(told)
    requires var s := AfterAll(setup);
             && CountersTrue(s) && id in s.models && s.models[id].quota == map[] && s.models[id].suspended == map[]
             && (forall client :: client in s.clientModels ==> multiset(s.clientModels[client])[id] <= 1)
             && Listers(s.clientModels, id) <= Refused(told)
    ensures var t := AfterAll(setup + AllEvents(told, id)); id in t.models && !Available(t.models[id], now)
  {
    hide AfterAll, Available, Refused, Exhausted;
    var s := AfterAll(setup);
    OfferedExactly(setup, told, id, now);
    CountIsTotal(s, id);
    ListersCounted(s.clientModels, id);
    Ordering.Within(Listers(s.clientModels, id), Refused(told));
  }

  /** It is offered again once one of them has had a success and none is exhausted. */
  lemma OneSuccessShows(setup: seq<Event>, told: seq<Told>, id: string, now: Time, client: string)
    requires id != "" && About(told) && Exhausted(told, now) == {}
    requires var s := AfterAll(setup);
             && CountersTrue(s) && id in s.models && s.models[id].quota == map[] && s.models[id].suspended == map[]
             && (forall c :: c in s.clientModels ==> multiset(s.clientModels[c])[id] <= 1)
             && client in Listers(s.clientModels, id) && OutFor(told, client) == 0
             && Refused(told) <= Listers(s.clientModels, id)
    ensures var t := AfterAll(setup + AllEvents(told, id)); id in t.models && Available(t.models[id], now)
  {
    hide AfterAll, Available, Exhausted;
    var s := AfterAll(setup);
    OfferedExactly(setup, told, id, now);
    ListersCounted(s.clientModels, id);
    assert Refused(told) <= Listers(s.clientModels, id) - {client};
    Ordering.Within(Refused(told), Listers(s.clientModels, id) - {client});
  }

  /** A client that is out for its quota stays so when it is refused afterwards: the first
      reason is kept, and the model stays offered. */
  lemma FirstReasonStays(client: string, quota: Result, refusal: Result, now: Time)
    requires !quota.success && StatusCode(quota.error) == 429 && !refusal.success && StatusCode(refusal.error) == 401
    ensures Refused([Told(client, quota, now), Told(client, refusal, now)]) == {}
    ensures Refused([Told(client, refusal, now), Told(client, quota, now)]) == {client}
  {
    var q, r := Told(client, quota, now), Told(client, refusal, now);
    assert [q, r][..1] == [q] && [r, q][..1] == [r] && [q][..0] == [] && [r][..0] == [];
    assert OutFor([q], client) == 429 && OutFor([r], client) == 401;
    assert r in [r, q] && Clients([r, q]) == {client} && Clients([q, r]) == {client};
  }
}
