/** Whole runs of the model registry (internal/registry): registrations, marks and cleanups
    between queries, whose answers are those of the clients' lists of that moment. */
module RegistryRuns {
  import opened Credentials
  import opened Ordering
  import opened RegistryState
  import opened RegistryListing
  import opened RegistryAvailability
  import opened Registry

  datatype Step =
    | Register(client: string, provider: string, listed: seq<Option<ModelInfo>>)
    | Unregister(client: string)
    | SetQuota(client: string, id: string)
    | ClearQuota(client: string, id: string)
    | Suspend(client: string, id: string, reason: string)
    | Resume(client: string, id: string)
    | Cleanup
    | AskModels(handler: string)
    | AskProviders(id: string)

  datatype Event = Event(now: Time, step: Step)

  datatype Response = Done | Offers(list: seq<Rendered>) | Suppliers(names: seq<string>)

  /** For each usable ID the info listed with it first. */
  function InfosOf(usable: seq<ModelInfo>): (infos: map<string, ModelInfo>)
    ensures forall id :: id in infos <==> id in IdsOf(usable)
  {
    if usable == [] then map[]
    else
      var before, last := InfosOf(usable[..|usable| - 1]), usable[|usable| - 1];
      assert IdsOf(usable) == IdsOf(usable[..|usable| - 1]) + [last.id];
      if last.id in before then before else before[last.id := last]
  }

  lemma {:induction false} InfosAreFirst(usable: seq<ModelInfo>)
    ensures FirstInfos(usable, InfosOf(usable))
  {
    hide FirstInfos;
    if usable == [] {
      NoInfos();
    } else {
      var before, last := usable[..|usable| - 1], usable[|usable| - 1];
      InfosAreFirst(before);
      FirstOfOneMore(before, InfosOf(before), last);
      assert before + [last] == usable;
    }
  }

  lemma NoInfos()
    ensures FirstInfos([], map[])
  {
  }

  /** Other marks on a registered model. */
  function Marked(s: State, id: string, quota: map<string, Time>, suspended: map<string, string>): State
    requires id in s.models
  {
    s.(models := s.models[id := s.models[id].(quota := quota, suspended := suspended)])
  }

  /** The registry after a step. */
  function StateAfter(s: State, e: Event): State {
    match e.step
    case Register(client, provider, listed) =>
      Registered(s, client, provider, IdsOf(Usable(listed)), InfosOf(Usable(listed)))
    case Unregister(client) => Unregistered(s, client)
    case SetQuota(client, id) =>
      if id !in s.models then s else Marked(s, id, s.models[id].quota[client := e.now], s.models[id].suspended)
    case ClearQuota(client, id) =>
      if id !in s.models then s else Marked(s, id, s.models[id].quota - {client}, s.models[id].suspended)
    case Suspend(client, id, reason) =>
      if client == "" || id == "" || id !in s.models || client in s.models[id].suspended then s
      else Marked(s, id, s.models[id].quota, s.models[id].suspended[client := reason])
    case Resume(client, id) =>
      if client == "" || id == "" || id !in s.models then s
      else Marked(s, id, s.models[id].quota, s.models[id].suspended - {client})
    case Cleanup => s.(models := CleanedAll(s.models, e.now))
    case _ => s
  }

  function AfterAll(events: seq<Event>): State {
    if events == [] then State(map[], map[], map[], map[]) else StateAfter(AfterAll(events[..|events| - 1]), events[|events| - 1])
  }

  /** All suppliers of the model, by number of listings and then by name. */
  ghost predicate BySupply(names: seq<string>, s: State, id: string) {
    && (forall p :: p in names <==> p != "" && Of(s, id)(p) > 0)
    && forall i, j :: 0 <= i < j < |names| ==>
         Of(s, id)(names[i]) > Of(s, id)(names[j]) || (Of(s, id)(names[i]) == Of(s, id)(names[j]) && Before(names[i], names[j]))
  }

  /** A query is answered as the registry of the moment calls for. */
  ghost predicate Right(s: State, e: Event, response: Response) {
    match e.step
    case AskModels(handler) => response.Offers? && Answer(response.list, handler, s.models, e.now)
    case AskProviders(id) => response.Suppliers? && BySupply(response.names, s, id)
    case _ => response.Done?
  }

  method Perform(r: ModelRegistry, e: Event) returns (response: Response)
    requires r.Valid() && r.clock <= e.now
    modifies r
    ensures r.Valid() && r.clock <= e.now && r.View() == StateAfter(old(r.View()), e)
    ensures Right(r.View(), e, response)
  {
    hide Answer, BySupply, CountersTrue, CacheTrue, WellFormed, Registered, Unregistered, CleanedAll, FirstInfos;
    response := Done;
    match e.step
    case Register(client, provider, listed) =>
      ghost var infos := r.RegisterClient(client, provider, listed);
      InfosAreFirst(Usable(listed));
      FirstInfosUnique(Usable(listed), infos, InfosOf(Usable(listed)));
    case Unregister(client) =>
      r.UnregisterClient(client);
    case SetQuota(client, id) =>
      r.SetModelQuotaExceeded(client, id, e.now);
    case ClearQuota(client, id) =>
      r.ClearModelQuotaExceeded(client, id);
    case Suspend(client, id, reason) =>
      r.SuspendClientModel(client, id, reason);
    case Resume(client, id) =>
      r.ResumeClientModel(client, id);
    case Cleanup =>
      r.CleanupExpiredQuotas(e.now);
    case AskModels(handler) =>
      var list := r.GetAvailableModels(handler, e.now);
      return Offers(list);
    case AskProviders(id) =>
      var names := r.GetModelProviders(id);
      Supplied(names, r.View(), id);
      return Suppliers(names);
  }

  lemma Supplied(names: seq<string>, s: State, id: string)
    requires forall p :: p in names <==> p != "" && Of(s, id)(p) > 0
    requires forall i, j :: 0 <= i < j < |names| ==>
      Of(s, id)(names[i]) > Of(s, id)(names[j]) || (Of(s, id)(names[i]) == Of(s, id)(names[j]) && Before(names[i], names[j]))
    ensures BySupply(names, s, id)
  {
  }

  /** Over any run with time never going back, whatever is cached, each query is answered
      as a registry would that adds up the clients' lists and the marks of that moment. */
  method Serve(events: seq<Event>) returns (responses: seq<Response>)
    requires forall i, j :: 0 <= i < j < |events| ==> events[i].now <= events[j].now
    ensures |responses| == |events|
    ensures forall i :: 0 <= i < |events| ==>
      WellFormed(AfterAll(events[..i])) && CountersTrue(AfterAll(events[..i])) && Right(AfterAll(events[..i]), events[i], responses[i])
  {
    hide Right, StateAfter, CountersTrue, WellFormed, CacheTrue;
    var r := new ModelRegistry();
    responses := [];
    for k := 0 to |events|
      invariant fresh(r) && r.Valid() && r.View() == AfterAll(events[..k])
      invariant k < |events| ==> r.clock <= events[k].now
      invariant |responses| == k
      invariant forall i :: 0 <= i < k ==>
        WellFormed(AfterAll(events[..i])) && CountersTrue(AfterAll(events[..i])) && Right(AfterAll(events[..i]), events[i], responses[i])
    {
      ghost var was := r.View();
      var response := Perform(r, events[k]);
      QueriesOnlyAsk(was, events[k], response);
      assert events[..k + 1] == events[..k] + [events[k]];
      responses := responses + [response];
    }
  }

  /** Queries change nothing, so the state they see is the one before them. */
  lemma QueriesOnlyAsk(s: State, e: Event, response: Response)
    requires Right(StateAfter(s, e), e, response)
    ensures Right(s, e, response)
  {
    hide Answer, BySupply, Registered, Unregistered, CleanedAll;
  }
}
