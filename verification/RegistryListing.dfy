/** The clients' lists added up: the simple recomputation that the registry's counters
    abbreviate, and how it changes when one client's list does. */
module RegistryListing {
  import opened Credentials
  import opened RegistryState

  type Lists = map<string, seq<string>>

  /** All listings of all clients together. */
  ghost function Listing(lists: Lists): multiset<string> {
    if lists == map[] then multiset{}
    else
      var client :| client in lists;
      multiset(lists[client]) + Listing(lists - {client})
  }

  /** Any client may be taken out first. */
  lemma {:induction false} ListingSplit(lists: Lists, client: string)
    requires client in lists
    ensures Listing(lists) == multiset(lists[client]) + Listing(lists - {client})
    decreases |lists|
  {
    var first :| first in lists && Listing(lists) == multiset(lists[first]) + Listing(lists - {first});
    if first != client {
      var rest := lists - {first};
      ListingSplit(rest, client);
      ListingSplit(lists - {client}, first);
      assert rest - {client} == lists - {client} - {first};
    }
  }

  lemma {:induction false} ListingWithin(some: Lists, all: Lists)
    requires some.Keys <= all.Keys && forall client :: client in some ==> some[client] == all[client]
    ensures Listing(some) <= Listing(all)
    decreases |some|
  {
    if some != map[] {
      var client :| client in some;
      ListingSplit(some, client);
      ListingSplit(all, client);
      ListingWithin(some - {client}, all - {client});
    }
  }

  /** An ID is listed in all exactly when some client lists it. */
  lemma {:induction false} ListedBySomeone(lists: Lists, id: string)
    ensures id in Listing(lists) <==> exists client :: client in lists && id in lists[client]
    decreases |lists|
  {
    if lists != map[] {
      var first :| first in lists;
      ListingSplit(lists, first);
      ListedBySomeone(lists - {first}, id);
      if client :| client in lists && id in lists[client] {
        assert client == first || client in lists - {first};
      }
    }
  }

  /** The lists of the clients of one provider. */
  function Through(lists: Lists, providers: map<string, string>, p: string): Lists {
    map client | client in lists && client in providers && providers[client] == p :: lists[client]
  }

  ghost function Total(s: State, id: string): nat {
    Listing(s.clientModels)[id]
  }

  ghost function Of(s: State, id: string): string -> nat {
    p => Listing(Through(s.clientModels, s.clientProviders, p))[id]
  }

  ghost predicate WellFormed(s: State) {
    && s.clientModelInfos.Keys == s.clientModels.Keys
    && s.clientProviders.Keys <= s.clientModels.Keys
    && (forall client :: client in s.clientModels ==> s.clientModels[client] != [])
    && (forall client :: client in s.clientProviders ==> s.clientProviders[client] != "")
  }

  /** Every counter says what adding up the clients' lists says. */
  ghost predicate CountersTrue(s: State) {
    forall id :: Counted(Lookup(s.models, id), Total(s, id), Of(s, id))
  }

  /** The registry's models are exactly those that some client lists. */
  lemma ModelsAreListed(s: State, id: string)
    requires CountersTrue(s)
    ensures id in s.models <==> exists client :: client in s.clientModels && id in s.clientModels[client]
  {
    assert Counted(Lookup(s.models, id), Total(s, id), Of(s, id));
    ListedBySomeone(s.clientModels, id);
  }

  function ProviderOf(s: State, client: string): string {
    if client in s.clientProviders then s.clientProviders[client] else ""
  }

  function CountsOf(ids: seq<string>): map<string, nat> {
    map id | id in ids :: multiset(ids)[id]
  }

  lemma CountsAreMultiplicities(ids: seq<string>, id: string)
    ensures Times(CountsOf(ids), id) == multiset(ids)[id]
  {
  }

  // ----- the operations on the whole state

  function ChangeOf(s: State, client: string, provider: string, ids: seq<string>, infos: map<string, ModelInfo>): Change {
    var listed := if client in s.clientModels then s.clientModels[client] else [];
    Change(client, ProviderOf(s, client), CountsOf(listed), provider, CountsOf(ids), infos)
  }

  function DroppedAll(models: Models, client: string, p: string, counts: map<string, nat>): Models {
    map id | id in models && DropN(Some(models[id]), client, p, Times(counts, id)).Some? ::
      DropN(Some(models[id]), client, p, Times(counts, id)).value
  }

  function AddedAll(models: Models, p: string, counts: map<string, nat>, infos: map<string, ModelInfo>): Models
    requires counts.Keys <= infos.Keys
  {
    map id | id in models.Keys + counts.Keys && AddedAt(models, p, counts, infos, id).Some? ::
      AddedAt(models, p, counts, infos, id).value
  }

  function AddedAt(models: Models, p: string, counts: map<string, nat>, infos: map<string, ModelInfo>, id: string): Option<Registration>
    requires counts.Keys <= infos.Keys
  {
    if id in counts then AddN(Lookup(models, id), p, infos[id], counts[id]) else Lookup(models, id)
  }

  function ReconciledAll(models: Models, ch: Change): Models
    requires ch.newCounts.Keys <= ch.infos.Keys
  {
    map id | id in models.Keys + ch.newCounts.Keys && Reconciled(ch, id, Lookup(models, id)).Some? ::
      Reconciled(ch, id, Lookup(models, id)).value
  }

  /** The client tables after a registration with a non-empty list. */
  function Entered(s: State, client: string, provider: string, ids: seq<string>, infos: map<string, ModelInfo>): State {
    s.(clientModels := s.clientModels[client := ids],
       clientModelInfos := s.clientModelInfos[client := infos],
       clientProviders := if provider != "" then s.clientProviders[client := provider] else s.clientProviders - {client})
  }

  /** unregisterClientInternal. */
  function Unregistered(s: State, client: string): State {
    if client in s.clientModels then
      State(DroppedAll(s.models, client, ProviderOf(s, client), CountsOf(s.clientModels[client])),
            s.clientModels - {client}, s.clientModelInfos - {client}, s.clientProviders - {client})
    else
      s.(clientProviders := s.clientProviders - {client})
  }

  /** RegisterClient with the listed IDs, repetitions included, and one info for each. */
  function Registered(s: State, client: string, provider: string, ids: seq<string>, infos: map<string, ModelInfo>): State
    requires forall id :: id in ids ==> id in infos
  {
    if ids == [] then
      var t := Unregistered(s, client);
      t.(clientModels := t.clientModels - {client}, clientModelInfos := t.clientModelInfos - {client})
    else if client !in s.clientModels then
      Entered(s.(models := AddedAll(s.models, provider, CountsOf(ids), infos)), client, provider, ids, infos)
    else
      Entered(s.(models := ReconciledAll(s.models, ChangeOf(s, client, provider, ids, infos))), client, provider, ids, infos)
  }

  // ----- one client leaves, one client enters

  lemma ThroughWithout(lists: Lists, providers: map<string, string>, client: string, p: string)
    ensures Through(lists - {client}, providers - {client}, p) == Through(lists, providers, p) - {client}
  {
  }

  lemma OfWithout(s: State, client: string, p: string, id: string)
    requires WellFormed(s) && client in s.clientModels
    ensures var t := Unregistered(s, client);
            Of(t, id)(p) == Minus(Of(s, id), ProviderOf(s, client), multiset(s.clientModels[client])[id])(p) || p == ""
    ensures p != "" && p == ProviderOf(s, client) ==> multiset(s.clientModels[client])[id] <= Of(s, id)(p)
  {
    ThroughWithout(s.clientModels, s.clientProviders, client, p);
    var through := Through(s.clientModels, s.clientProviders, p);
    if client in through {
      ListingSplit(through, client);
    } else {
      assert through - {client} == through;
    }
  }

  lemma CountedBySame(reg: Option<Registration>, total: nat, of: string -> nat, also: string -> nat)
    requires Counted(reg, total, of) && forall p :: p != "" ==> of(p) == also(p)
    ensures Counted(reg, total, also)
  {
  }

  lemma CounterWithout(s: State, client: string, id: string)
    requires WellFormed(s) && client in s.clientModels && Counted(Lookup(s.models, id), Total(s, id), Of(s, id))
    ensures var t := Unregistered(s, client);
            Counted(Lookup(t.models, id), Total(t, id), Of(t, id))
  {
    hide Counted, Listing, Minus;
    var p, k0 := ProviderOf(s, client), multiset(s.clientModels[client])[id];
    ListingSplit(s.clientModels, client);
    CountsAreMultiplicities(s.clientModels[client], id);
    OfWithout(s, client, p, id);
    DropCounted(Lookup(s.models, id), client, p, k0, Total(s, id), Of(s, id));
    var t := Unregistered(s, client);
    forall q | q != "" ensures Minus(Of(s, id), p, k0)(q) == Of(t, id)(q) {
      OfWithout(s, client, q, id);
    }
    assert Lookup(t.models, id) == DropN(Lookup(s.models, id), client, p, k0);
    CountedBySame(Lookup(t.models, id), Total(t, id), Minus(Of(s, id), p, k0), Of(t, id));
  }

  /** Unregistering keeps every counter true. */
  lemma UnregisteredIsTrue(s: State, client: string)
    requires WellFormed(s) && CountersTrue(s)
    ensures WellFormed(Unregistered(s, client)) && CountersTrue(Unregistered(s, client))
  {
    var t := Unregistered(s, client);
    if client in s.clientModels {
      forall id ensures Counted(Lookup(t.models, id), Total(t, id), Of(t, id)) {
        CounterWithout(s, client, id);
      }
    } else {
      assert t == s;
    }
  }

  lemma ThroughWith(lists: Lists, providers: map<string, string>, client: string, provider: string, ids: seq<string>, p: string)
    requires client !in lists && client !in providers && p != ""
    ensures Through(lists[client := ids], if provider != "" then providers[client := provider] else providers - {client}, p)
         == if p == provider then Through(lists, providers, p)[client := ids] else Through(lists, providers, p)
  {
  }

  lemma OfWith(s: State, client: string, provider: string, ids: seq<string>, infos: map<string, ModelInfo>, p: string, id: string)
    requires WellFormed(s) && client !in s.clientModels && p != ""
    ensures var t := Entered(s, client, provider, ids, infos);
            Of(t, id)(p) == Plus(Of(s, id), provider, multiset(ids)[id])(p)
  {
    hide Listing, Through;
    ThroughWith(s.clientModels, s.clientProviders, client, provider, ids, p);
    var through := Through(s.clientModels, s.clientProviders, p);
    if p == provider {
      NotThrough(s.clientModels, s.clientProviders, p, client);
      ListingSplit(through[client := ids], client);
      assert through[client := ids] - {client} == through;
    }
  }

  lemma NotThrough(lists: Lists, providers: map<string, string>, p: string, client: string)
    requires client !in lists
    ensures client !in Through(lists, providers, p)
  {
  }

  lemma RegisteredAt(s: State, client: string, provider: string, ids: seq<string>, infos: map<string, ModelInfo>, id: string)
    requires ids != [] && forall x :: x in ids ==> x in infos
    ensures var t := Registered(s, client, provider, ids, infos);
            && Lookup(t.models, id) ==
                 (if client !in s.clientModels then AddedAt(s.models, provider, CountsOf(ids), infos, id)
                  else Reconciled(ChangeOf(s, client, provider, ids, infos), id, Lookup(s.models, id)))
            && t.clientModels == s.clientModels[client := ids]
            && Of(t, id) == Of(Entered(s, client, provider, ids, infos), id)
  {
    var k := CountsOf(ids);
    if client in s.clientModels && id !in s.models && id !in k {
      hide Of;
      assert Reconciled(ChangeOf(s, client, provider, ids, infos), id, None) == None;
    }
  }

  lemma PlusNothing(of: string -> nat, p: string)
    ensures forall q :: Plus(of, p, 0)(q) == of(q)
  {
  }

  lemma NobodyYet(s: State, id: string)
    requires Counted(Lookup(s.models, id), Total(s, id), Of(s, id)) && id !in s.models
    ensures forall p :: Of(s, id)(p) == 0
  {
    forall p ensures Of(s, id)(p) == 0 {
      ListingWithin(Through(s.clientModels, s.clientProviders, p), s.clientModels);
    }
  }

  lemma CounterWith(s: State, client: string, provider: string, ids: seq<string>, infos: map<string, ModelInfo>, id: string)
    requires WellFormed(s) && client !in s.clientModels && ids != [] && forall x :: x in ids ==> x in infos
    requires Counted(Lookup(s.models, id), Total(s, id), Of(s, id))
    ensures var t := Registered(s, client, provider, ids, infos);
            Counted(Lookup(t.models, id), Total(t, id), Of(t, id))
  {
    hide Counted, Listing, Plus, Registered, Of, AddN, Entered;
    var k, p := multiset(ids)[id], provider;
    var t := Registered(s, client, provider, ids, infos);
    CountsAreMultiplicities(ids, id);
    RegisteredAt(s, client, provider, ids, infos, id);
    ListingSplit(t.clientModels, client);
    assert t.clientModels - {client} == s.clientModels;
    forall q | q != "" ensures Plus(Of(s, id), p, k)(q) == Of(t, id)(q) {
      OfWith(s, client, provider, ids, infos, q, id);
    }
    if k > 0 {
      if id !in s.models {
        NobodyYet(s, id);
      }
      AddCounted(Lookup(s.models, id), p, infos[id], k, Total(s, id), Of(s, id));
      CountedBySame(Lookup(t.models, id), Total(t, id), Plus(Of(s, id), p, k), Of(t, id));
    } else {
      PlusNothing(Of(s, id), p);
      CountedBySame(Lookup(t.models, id), Total(t, id), Of(s, id), Of(t, id));
    }
  }

  // ----- an existing client is reconciled

  lemma ClientContributes(s: State, client: string, provider: string, ids: seq<string>, infos: map<string, ModelInfo>, id: string)
    requires WellFormed(s) && client in s.clientModels
    ensures Contributes(ChangeOf(s, client, provider, ids, infos), id, Total(s, id), Of(s, id))
  {
    var lists, providers, mine := s.clientModels, s.clientProviders, ProviderOf(s, client);
    var k0 := multiset(lists[client])[id];
    CountsAreMultiplicities(lists[client], id);
    ListingSplit(lists, client);
    if mine != "" {
      ListingSplit(Through(lists, providers, mine), client);
      ListingWithin(Through(lists, providers, mine), lists);
    }
    forall p | p != mine ensures Of(s, id)(p) + k0 <= Total(s, id) {
      ListingWithin(Through(lists, providers, p), lists - {client});
    }
  }

  /** What the source's differential reconciliation does at one model ID, against
      unregistering the client and registering it afresh. */
  lemma ReplacedAt(s: State, client: string, provider: string, ids: seq<string>, infos: map<string, ModelInfo>, id: string)
    requires WellFormed(s) && client in s.clientModels && ids != [] && forall x :: x in ids ==> x in infos
    ensures var u := Registered(Unregistered(s, client), client, provider, ids, infos);
            Lookup(u.models, id) == Replaced(ChangeOf(s, client, provider, ids, infos), id, Lookup(s.models, id))
  {
    hide AddN, DropN;
    var without := Unregistered(s, client);
    RegisteredAt(without, client, provider, ids, infos, id);
    NothingDropped(client, ProviderOf(s, client), Times(CountsOf(s.clientModels[client]), id));
    assert Lookup(without.models, id) == DropN(Lookup(s.models, id), client, ProviderOf(s, client), Times(CountsOf(s.clientModels[client]), id));
  }

  lemma NothingDropped(client: string, p: string, n: nat)
    ensures DropN(None, client, p, n) == None
  {
  }

  lemma ChangeKeys(s: State, client: string, provider: string, ids: seq<string>, infos: map<string, ModelInfo>)
    requires forall x :: x in ids ==> x in infos
    ensures var ch := ChangeOf(s, client, provider, ids, infos); ch.newCounts.Keys <= ch.infos.Keys
  {
  }

  /** The counter of one model ID after an existing client is reconciled. */
  lemma ReconciledCounter(s: State, client: string, provider: string, ids: seq<string>, infos: map<string, ModelInfo>, id: string)
    requires WellFormed(s) && CountersTrue(s) && client in s.clientModels
    requires ids != [] && forall x :: x in ids ==> x in infos
    requires CountersTrue(Registered(Unregistered(s, client), client, provider, ids, infos))
    ensures var t := Registered(s, client, provider, ids, infos);
            Counted(Lookup(t.models, id), Total(t, id), Of(t, id))
  {
    hide Counted, Reconciled, Replaced, Contributes, Of, Total, Registered, Unregistered, ChangeOf, Entered, WellFormed;
    var t := Registered(s, client, provider, ids, infos);
    var u := Registered(Unregistered(s, client), client, provider, ids, infos);
    var ch := ChangeOf(s, client, provider, ids, infos);
    ChangeKeys(s, client, provider, ids, infos);
    ReplacedAt(s, client, provider, ids, infos, id);
    RegisteredAt(s, client, provider, ids, infos, id);
    ClientContributes(s, client, provider, ids, infos, id);
    SameTotals(s, client, provider, ids, infos, id);
    SameCounters(ch, id, Lookup(s.models, id), Total(s, id), Of(s, id), Total(u, id), Of(u, id));
    CountedBySame(Lookup(t.models, id), Total(u, id), Of(u, id), Of(t, id));
  }

  /** Registering a client that is not registered keeps every counter true. */
  lemma EnteredIsTrue(s: State, client: string, provider: string, ids: seq<string>, infos: map<string, ModelInfo>)
    requires WellFormed(s) && CountersTrue(s) && client !in s.clientModels
    requires ids != [] && forall x :: x in ids ==> x in infos
    ensures CountersTrue(Registered(s, client, provider, ids, infos))
  {
    hide Counted, Of, Total, Registered, WellFormed;
    var t := Registered(s, client, provider, ids, infos);
    forall id ensures Counted(Lookup(t.models, id), Total(t, id), Of(t, id)) {
      CounterWith(s, client, provider, ids, infos, id);
    }
  }

  lemma RegisteredIsWellFormed(s: State, client: string, provider: string, ids: seq<string>, infos: map<string, ModelInfo>)
    requires WellFormed(s) && forall x :: x in ids ==> x in infos
    ensures WellFormed(Registered(s, client, provider, ids, infos))
  {
    hide AddedAll, ReconciledAll, DroppedAll, ChangeOf, CountsOf;
  }

  /** Registering keeps every counter true, whatever the client listed before and through
      whichever provider. */
  lemma RegisteredIsTrue(s: State, client: string, provider: string, ids: seq<string>, infos: map<string, ModelInfo>)
    requires WellFormed(s) && CountersTrue(s) && forall x :: x in ids ==> x in infos
    ensures WellFormed(Registered(s, client, provider, ids, infos)) && CountersTrue(Registered(s, client, provider, ids, infos))
  {
    hide Counted, Of, Total, AddedAll, ReconciledAll, DroppedAll, ChangeOf, CountsOf;
    RegisteredIsWellFormed(s, client, provider, ids, infos);
    UnregisteredIsTrue(s, client);
    var t := Registered(s, client, provider, ids, infos);
    if ids == [] {
      SameTables(Unregistered(s, client), client);
    } else if client !in s.clientModels {
      EnteredIsTrue(s, client, provider, ids, infos);
    } else {
      EnteredIsTrue(Unregistered(s, client), client, provider, ids, infos);
      forall id ensures Counted(Lookup(t.models, id), Total(t, id), Of(t, id)) {
        ReconciledCounter(s, client, provider, ids, infos, id);
      }
    }
  }

  lemma SameTables(t: State, client: string)
    requires client !in t.clientModels && client !in t.clientModelInfos
    ensures t.(clientModels := t.clientModels - {client}, clientModelInfos := t.clientModelInfos - {client}) == t
  {
  }

  lemma SameClientTables(s: State, client: string, provider: string, ids: seq<string>, infos: map<string, ModelInfo>)
    requires WellFormed(s) && client in s.clientModels && ids != [] && forall x :: x in ids ==> x in infos
    ensures var t, u := Registered(s, client, provider, ids, infos), Registered(Unregistered(s, client), client, provider, ids, infos);
            t.clientModels == u.clientModels && t.clientModelInfos == u.clientModelInfos && t.clientProviders == u.clientProviders
  {
    hide AddedAll, ReconciledAll, DroppedAll, ChangeOf, CountsOf, WellFormed;
    var out := Unregistered(s, client);
    assert s.clientModels[client := ids] == out.clientModels[client := ids];
    assert s.clientModelInfos[client := infos] == out.clientModelInfos[client := infos];
    assert s.clientProviders[client := provider] == out.clientProviders[client := provider];
    assert s.clientProviders - {client} == out.clientProviders - {client};
  }

  lemma SameTotals(s: State, client: string, provider: string, ids: seq<string>, infos: map<string, ModelInfo>, id: string)
    requires WellFormed(s) && client in s.clientModels && ids != [] && forall x :: x in ids ==> x in infos
    ensures var t, u := Registered(s, client, provider, ids, infos), Registered(Unregistered(s, client), client, provider, ids, infos);
            && t.clientModels == u.clientModels && t.clientModelInfos == u.clientModelInfos && t.clientProviders == u.clientProviders
            && Total(t, id) == Total(u, id) && forall p :: Of(t, id)(p) == Of(u, id)(p)
  {
    hide Registered, Unregistered, WellFormed, Listing;
    SameClientTables(s, client, provider, ids, infos);
  }

  /** Re-registering an existing client leaves the state that unregistering it and
      registering it afresh leaves, exactly when no stale mark is in the way. */
  lemma Reregistration(s: State, client: string, provider: string, ids: seq<string>, infos: map<string, ModelInfo>)
    requires WellFormed(s) && CountersTrue(s) && client in s.clientModels && ids != [] && forall x :: x in ids ==> x in infos
    ensures Registered(s, client, provider, ids, infos) == Registered(Unregistered(s, client), client, provider, ids, infos)
            <==> forall id :: CleanMarks(ChangeOf(s, client, provider, ids, infos), id, Lookup(s.models, id))
  {
    hide Counted, Reconciled, Replaced, Contributes, Of, Total, AddedAll, ReconciledAll, DroppedAll, Registered, CleanMarks, ChangeOf, Unregistered;
    var t, u := Registered(s, client, provider, ids, infos), Registered(Unregistered(s, client), client, provider, ids, infos);
    ChangeKeys(s, client, provider, ids, infos);
    forall id ensures Lookup(t.models, id) == Lookup(u.models, id)
                      <==> CleanMarks(ChangeOf(s, client, provider, ids, infos), id, Lookup(s.models, id)) {
      ReplacedAt(s, client, provider, ids, infos, id);
      RegisteredAt(s, client, provider, ids, infos, id);
      ClientContributes(s, client, provider, ids, infos, id);
      ReconciledIsReplaced(ChangeOf(s, client, provider, ids, infos), id, Lookup(s.models, id), Total(s, id), Of(s, id));
    }
    SameTotals(s, client, provider, ids, infos, "");
    if forall id :: Lookup(t.models, id) == Lookup(u.models, id) {
      SameLookups(t.models, u.models);
    }
  }

  /** Marks belong to clients that list the model. */
  ghost predicate MarkedByListers(s: State) {
    forall id, client :: id in s.models && client in s.models[id].quota.Keys + s.models[id].suspended.Keys ==>
      client in s.clientModels && id in s.clientModels[client]
  }

  lemma TwoListers(lists: Lists, client: string, other: string, id: string)
    requires client in lists && other in lists && client != other && id in lists[other]
    ensures Listing(lists)[id] > multiset(lists[client])[id]
  {
    ListingSplit(lists, client);
    ListingSplit(lists - {client}, other);
  }

  lemma MarksOfListersAreClean(s: State, client: string, provider: string, ids: seq<string>, infos: map<string, ModelInfo>, id: string)
    requires CountersTrue(s) && MarkedByListers(s)
    requires client in s.clientModels && ids != [] && forall x :: x in ids ==> x in infos
    ensures CleanMarks(ChangeOf(s, client, provider, ids, infos), id, Lookup(s.models, id))
  {
    hide Listing, Of, CountersTrue, CountsOf, ProviderOf;
    CountsAreMultiplicities(s.clientModels[client], id);
    if id in s.models {
      CountIsTotal(s, id);
      forall other | other in s.models[id].quota.Keys + s.models[id].suspended.Keys && other != client
        ensures s.models[id].count > multiset(s.clientModels[client])[id] {
        TwoListers(s.clientModels, client, other, id);
      }
    }
  }

  lemma CountIsTotal(s: State, id: string)
    requires CountersTrue(s) && id in s.models
    ensures s.models[id].count == Total(s, id)
  {
    assert Counted(Lookup(s.models, id), Total(s, id), Of(s, id));
  }

  /** Under that condition re-registering is always unregistering and registering afresh. */
  lemma ReregistrationOfListers(s: State, client: string, provider: string, ids: seq<string>, infos: map<string, ModelInfo>)
    requires WellFormed(s) && CountersTrue(s) && MarkedByListers(s)
    requires client in s.clientModels && ids != [] && forall x :: x in ids ==> x in infos
    ensures Registered(s, client, provider, ids, infos) == Registered(Unregistered(s, client), client, provider, ids, infos)
  {
    hide Registered, Unregistered, CleanMarks, ChangeOf, WellFormed, CountersTrue, MarkedByListers;
    forall id ensures CleanMarks(ChangeOf(s, client, provider, ids, infos), id, Lookup(s.models, id)) {
      MarksOfListersAreClean(s, client, provider, ids, infos, id);
    }
    Reregistration(s, client, provider, ids, infos);
  }

  lemma SameLookups(m: Models, n: Models)
    requires forall id :: Lookup(m, id) == Lookup(n, id)
    ensures m == n
  {
    forall id ensures id in m <==> id in n {
      assert Lookup(m, id) == Lookup(n, id);
    }
    forall id | id in m ensures m[id] == n[id] {
      assert Lookup(m, id) == Lookup(n, id);
    }
  }

  // ----- what a registration leaves

  /** The tables hold the new list and nothing of the old one; other clients are not
      touched. Without a usable model the client is gone. */
  lemma RegisteredTables(s: State, client: string, provider: string, ids: seq<string>, infos: map<string, ModelInfo>)
    requires WellFormed(s) && forall id :: id in ids ==> id in infos
    ensures var t := Registered(s, client, provider, ids, infos);
            if ids == [] then
              && t.clientModels == s.clientModels - {client} && t.clientModelInfos == s.clientModelInfos - {client}
              && t.clientProviders == s.clientProviders - {client}
            else
              && t.clientModels == s.clientModels[client := ids] && t.clientModelInfos == s.clientModelInfos[client := infos]
              && t.clientProviders == if provider == "" then s.clientProviders - {client} else s.clientProviders[client := provider]
  {
    hide DroppedAll, AddedAll, ReconciledAll;
  }

  lemma UnregisteredTables(s: State, client: string)
    requires WellFormed(s)
    ensures var t := Unregistered(s, client);
            && t.clientModels == s.clientModels - {client} && t.clientModelInfos == s.clientModelInfos - {client}
            && t.clientProviders == s.clientProviders - {client}
  {
    hide DroppedAll;
  }

  /** What a registration shows after a listing, or without one. */
  ghost predicate Shows(before: Option<Registration>, after: Option<Registration>, provider: string, info: Option<ModelInfo>) {
    after.Some? ==>
      match info
      case Some(listed) =>
        after.value.info == listed
        && (provider != "" ==> provider in after.value.infoByProvider && after.value.infoByProvider[provider] == listed)
      case None => before.Some? && after.value.info == before.value.info
  }

  /** Each listed model is registered with its new info, also for the client's provider;
      the infos of all others stay. */
  lemma RegisteredShows(s: State, client: string, provider: string, ids: seq<string>, infos: map<string, ModelInfo>, id: string)
    requires WellFormed(s) && CountersTrue(s) && forall other :: other in ids ==> other in infos
    ensures var t := Registered(s, client, provider, ids, infos);
            && (id in ids ==> id in t.models)
            && Shows(Lookup(s.models, id), Lookup(t.models, id), provider, if id in ids then Some(infos[id]) else None)
  {
    var t := Registered(s, client, provider, ids, infos);
    RegisteredIsTrue(s, client, provider, ids, infos);
    RegisteredTables(s, client, provider, ids, infos);
    if id in ids {
      assert client in t.clientModels && id in t.clientModels[client];
      ModelsAreListed(t, id);
    }
    hide CountersTrue, WellFormed, Shows, Lookup, Registered;
    RegisteredModels(s, client, provider, ids, infos, id);
  }

  lemma RegisteredModels(s: State, client: string, provider: string, ids: seq<string>, infos: map<string, ModelInfo>, id: string)
    requires forall other :: other in ids ==> other in infos
    ensures Shows(Lookup(s.models, id), Lookup(Registered(s, client, provider, ids, infos).models, id), provider,
                  if id in ids then Some(infos[id]) else None)
  {
    hide DroppedAll, AddedAll, ReconciledAll, Shows, ChangeOf;
    if ids == [] {
      if client in s.clientModels {
        DroppedShows(s.models, client, ProviderOf(s, client), CountsOf(s.clientModels[client]), id, provider);
      } else {
        StillShows(Lookup(s.models, id), provider);
      }
    } else if client !in s.clientModels {
      AddedShows(s.models, provider, CountsOf(ids), infos, id);
    } else {
      ChangeIs(s, client, provider, ids, infos);
      ReconciledShows(s.models, ChangeOf(s, client, provider, ids, infos), id);
    }
  }

  lemma ChangeIs(s: State, client: string, provider: string, ids: seq<string>, infos: map<string, ModelInfo>)
    requires forall other :: other in ids ==> other in infos
    ensures var ch := ChangeOf(s, client, provider, ids, infos);
            ch.provider == provider && ch.infos == infos && ch.newCounts == CountsOf(ids) && ch.newCounts.Keys <= infos.Keys
    ensures forall id :: id in CountsOf(ids) <==> id in ids
    ensures forall id :: id in CountsOf(ids) ==> CountsOf(ids)[id] > 0
  {
  }

  lemma StillShows(reg: Option<Registration>, provider: string)
    ensures Shows(reg, reg, provider, None)
  {
  }

  lemma DroppedShows(models: Models, client: string, p: string, counts: map<string, nat>, id: string, provider: string)
    ensures Shows(Lookup(models, id), Lookup(DroppedAll(models, client, p, counts), id), provider, None)
  {
  }

  lemma AddedShows(models: Models, p: string, counts: map<string, nat>, infos: map<string, ModelInfo>, id: string)
    requires counts.Keys <= infos.Keys && forall other :: other in counts ==> counts[other] > 0
    ensures Shows(Lookup(models, id), Lookup(AddedAll(models, p, counts, infos), id), p, if id in counts then Some(infos[id]) else None)
  {
    assert Lookup(AddedAll(models, p, counts, infos), id) == AddedAt(models, p, counts, infos, id);
    hide AddedAll;
  }

  lemma ReconciledShows(models: Models, ch: Change, id: string)
    requires ch.newCounts.Keys <= ch.infos.Keys && forall other :: other in ch.newCounts ==> ch.newCounts[other] > 0
    ensures Shows(Lookup(models, id), Lookup(ReconciledAll(models, ch), id), ch.provider,
                  if id in ch.newCounts then Some(ch.infos[id]) else None)
  {
    ReconciledAtShows(ch, id, Lookup(models, id));
    hide Reconciled, Shows;
    if Lookup(ReconciledAll(models, ch), id).None? {
      NothingShows(Lookup(models, id), ch.provider, if id in ch.newCounts then Some(ch.infos[id]) else None);
    }
  }

  lemma NothingShows(reg: Option<Registration>, provider: string, info: Option<ModelInfo>)
    ensures Shows(reg, None, provider, info)
  {
  }

  lemma ReconciledAtShows(ch: Change, id: string, reg: Option<Registration>)
    requires ch.newCounts.Keys <= ch.infos.Keys && forall other :: other in ch.newCounts ==> ch.newCounts[other] > 0
    ensures Shows(reg, Reconciled(ch, id, reg), ch.provider, if id in ch.newCounts then Some(ch.infos[id]) else None)
  {
  }
}
