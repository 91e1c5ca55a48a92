/** The reference-counted model registry (internal/registry) as values: what one
    registration undergoes, and what the counters must say about the clients' lists. */
module RegistryState {
  import opened Credentials

  datatype ModelInfo = ModelInfo(id: string, details: string)

  datatype Registration = Registration(
    info: ModelInfo,
    infoByProvider: map<string, ModelInfo>,
    count: int,
    quota: map<string, Time>,       // clients over quota, and since when
    providers: map<string, int>,
    suspended: map<string, string>) // suspended clients, and why

  type Models = map<string, Registration>

  datatype State = State(
    models: Models,
    clientModels: map<string, seq<string>>,
    clientModelInfos: map<string, map<string, ModelInfo>>,
    clientProviders: map<string, string>)

  function Lookup(models: Models, id: string): Option<Registration> {
    if id in models then Some(models[id]) else None
  }

  function Put(models: Models, id: string, reg: Option<Registration>): Models {
    if reg.Some? then models[id := reg.value] else models - {id}
  }

  // ----- one registration

  /** `n` providers fewer; the entry goes with its last provider. */
  function Lowered(providers: map<string, int>, p: string, n: nat): map<string, int> {
    if p == "" || p !in providers || n == 0 then providers
    else if providers[p] <= n then providers - {p}
    else providers[p := providers[p] - n]
  }

  function Raised(providers: map<string, int>, p: string, n: nat): map<string, int> {
    if p == "" || n == 0 then providers
    else providers[p := (if p in providers then providers[p] else 0) + n]
  }

  function WithInfo(infos: map<string, ModelInfo>, p: string, info: ModelInfo): map<string, ModelInfo> {
    if p == "" then infos else infos[p := info]
  }

  /** Infos of providers that are still there. */
  function KeptInfos(infos: map<string, ModelInfo>, providers: map<string, int>, p: string, n: nat): map<string, ModelInfo> {
    if p != "" && p in providers && n > 0 && providers[p] <= n then infos - {p} else infos
  }

  /** addModelRegistration, `n` times. */
  function AddN(reg: Option<Registration>, p: string, info: ModelInfo, n: nat): Option<Registration> {
    if n == 0 then reg
    else match reg
      case None => Some(Registration(info, WithInfo(map[], p, info), n, map[], Raised(map[], p, n), map[]))
      case Some(r) =>
        Some(r.(info := info, infoByProvider := WithInfo(r.infoByProvider, p, info), count := r.count + n,
                providers := Raised(r.providers, p, n)))
  }

  /** removeModelRegistration, `n` times. */
  function DropN(reg: Option<Registration>, client: string, p: string, n: nat): Option<Registration> {
    if n == 0 then reg
    else match reg
      case None => None
      case Some(r) =>
        if r.count <= n then None
        else Some(r.(count := r.count - n, quota := r.quota - {client}, suspended := r.suspended - {client},
                     providers := Lowered(r.providers, p, n),
                     infoByProvider := KeptInfos(r.infoByProvider, r.providers, p, n)))
  }

  lemma RaisedTwice(m: map<string, int>, p: string, i: nat, j: nat)
    ensures Raised(Raised(m, p, i), p, j) == Raised(m, p, i + j)
  {
  }

  lemma LoweredTwice(m: map<string, int>, p: string, i: nat, j: nat)
    ensures Lowered(Lowered(m, p, i), p, j) == Lowered(m, p, i + j)
  {
  }

  lemma AddOneMore(reg: Option<Registration>, p: string, info: ModelInfo, n: nat)
    ensures AddN(AddN(reg, p, info, n), p, info, 1) == AddN(reg, p, info, n + 1)
  {
    RaisedTwice(if reg.Some? then reg.value.providers else map[], p, n, 1);
    assert WithInfo(WithInfo(map[], p, info), p, info) == WithInfo(map[], p, info);
    if reg.Some? {
      var infos := reg.value.infoByProvider;
      assert WithInfo(WithInfo(infos, p, info), p, info) == WithInfo(infos, p, info);
    }
  }

  lemma DropOneMore(reg: Option<Registration>, client: string, p: string, n: nat)
    ensures DropN(DropN(reg, client, p, n), client, p, 1) == DropN(reg, client, p, n + 1)
  {
    if reg.Some? {
      var r := reg.value;
      LoweredTwice(r.providers, p, n, 1);
      assert r.quota - {client} - {client} == r.quota - {client};
      assert r.suspended - {client} - {client} == r.suspended - {client};
      assert KeptInfos(KeptInfos(r.infoByProvider, r.providers, p, n), Lowered(r.providers, p, n), p, 1)
          == KeptInfos(r.infoByProvider, r.providers, p, n + 1);
    }
  }

  // ----- the reconciliation of one client

  /** A new listing of a client that is already registered. */
  datatype Change = Change(
    client: string,
    oldProvider: string, oldCounts: map<string, nat>,
    provider: string, newCounts: map<string, nat>, infos: map<string, ModelInfo>)

  function Times(counts: map<string, nat>, id: string): nat {
    if id in counts then counts[id] else 0
  }

  function Min(a: nat, b: nat): nat {
    if a < b then a else b
  }

  function Moved(ch: Change): bool {
    ch.oldProvider != ch.provider
  }

  /** The five loops of RegisterClient over an existing client, one registration at a time. */
  datatype Stage = MoveOut | DropRemoved | DropOverage | AddNew | Refresh

  function After(ch: Change, stage: Stage, id: string, reg: Option<Registration>): Option<Registration>
    requires ch.newCounts.Keys <= ch.infos.Keys
  {
    var k0, k := Times(ch.oldCounts, id), Times(ch.newCounts, id);
    match stage
    case MoveOut =>
      if Moved(ch) && ch.oldProvider != "" && reg.Some? then
        Some(reg.value.(providers := Lowered(reg.value.providers, ch.oldProvider, Min(k0, k)),
                        infoByProvider := KeptInfos(reg.value.infoByProvider, reg.value.providers, ch.oldProvider, Min(k0, k))))
      else reg
    case DropRemoved => if k == 0 then DropN(reg, ch.client, ch.oldProvider, k0) else reg
    case DropOverage => if 0 < k < k0 then DropN(reg, ch.client, ch.oldProvider, k0 - k) else reg
    case AddNew => if k0 < k then AddN(reg, ch.provider, ch.infos[id], k - k0) else reg
    case Refresh =>
      if k == 0 || reg.None? then reg
      else
        var r := reg.value;
        Some(r.(info := ch.infos[id], infoByProvider := WithInfo(r.infoByProvider, ch.provider, ch.infos[id]),
                quota := r.quota - {ch.client}, suspended := r.suspended - {ch.client},
                providers := if Moved(ch) then Raised(r.providers, ch.provider, Min(k0, k)) else r.providers))
  }

  function Reconciled(ch: Change, id: string, reg: Option<Registration>): Option<Registration>
    requires ch.newCounts.Keys <= ch.infos.Keys
  {
    After(ch, Refresh, id, After(ch, AddNew, id, After(ch, DropOverage, id, After(ch, DropRemoved, id, After(ch, MoveOut, id, reg)))))
  }

  /** What unregistering the client and registering it afresh does to the same registration. */
  function Replaced(ch: Change, id: string, reg: Option<Registration>): Option<Registration>
    requires ch.newCounts.Keys <= ch.infos.Keys
  {
    var without := DropN(reg, ch.client, ch.oldProvider, Times(ch.oldCounts, id));
    if id in ch.newCounts then AddN(without, ch.provider, ch.infos[id], ch.newCounts[id]) else without
  }

  /** The counters of a registration: `total` listings in all, `of(p)` of them through
      clients of provider `p`. */
  ghost predicate Counted(reg: Option<Registration>, total: nat, of: string -> nat) {
    match reg
    case None => total == 0
    case Some(r) =>
      && r.count == total > 0
      && (forall p :: p in r.providers <==> p != "" && of(p) > 0)
      && (forall p :: p in r.providers ==> r.providers[p] == of(p))
      && r.infoByProvider.Keys == r.providers.Keys
  }

  /** A mark on a registration that only its own client's departure would clear, or that
      its departure would not clear. */
  ghost predicate CleanMarks(ch: Change, id: string, reg: Option<Registration>) {
    var k0, k := Times(ch.oldCounts, id), Times(ch.newCounts, id);
    reg.Some? && k > 0 ==>
      && (k0 > 0 && reg.value.count == k0 ==> reg.value.quota.Keys + reg.value.suspended.Keys <= {ch.client})
      && (k0 == 0 ==> ch.client !in reg.value.quota && ch.client !in reg.value.suspended)
  }

  /** On one registration with true counters, reconciling is unregistering and
      registering afresh exactly when no stale mark is in the way. */
  lemma ReconciledIsReplaced(ch: Change, id: string, reg: Option<Registration>, total: nat, of: string -> nat)
    requires ch.newCounts.Keys <= ch.infos.Keys
    requires Counted(reg, total, of) && Contributes(ch, id, total, of)
    ensures Reconciled(ch, id, reg) == Replaced(ch, id, reg) <==> CleanMarks(ch, id, reg)
  {
    var k := Times(ch.newCounts, id);
    if k == 0 {
      Withdrawn(ch, id, reg);
    } else if reg.None? {
      FirstListing(ch, id);
    } else {
      ReconciledForm(ch, id, reg.value, total, of);
      ReplacedForm(ch, id, reg.value);
      SameForms(ch, id, reg.value, total, of);
      hide Reconciled, Replaced, Counted, Contributes, Lowered, Raised, KeptInfos, WithInfo;
    }
  }

  /** The mark of a client that does not list the model outlives a reconciliation of the
      only client that does; a fresh registration would not have it. */
  lemma StaleMarkSurvives()
    ensures
      var info := ModelInfo("m", "");
      var ch := Change("c", "p", map["m" := 1], "p", map["m" := 1], map["m" := info]);
      var reg := Some(Registration(info, map["p" := info], 1, map["x" := 1], map["p" := 1], map[]));
      && Reconciled(ch, "m", reg).Some? && "x" in Reconciled(ch, "m", reg).value.quota
      && Replaced(ch, "m", reg).Some? && "x" !in Replaced(ch, "m", reg).value.quota
  {
    assert "x" != "c";
  }

  lemma Withdrawn(ch: Change, id: string, reg: Option<Registration>)
    requires ch.newCounts.Keys <= ch.infos.Keys && Times(ch.newCounts, id) == 0
    ensures Reconciled(ch, id, reg) == Replaced(ch, id, reg)
  {
  }

  lemma FirstListing(ch: Change, id: string)
    requires ch.newCounts.Keys <= ch.infos.Keys && Times(ch.newCounts, id) > 0 && Times(ch.oldCounts, id) == 0
    ensures Reconciled(ch, id, None) == Replaced(ch, id, None)
  {
    var infos := WithInfo(map[], ch.provider, ch.infos[id]);
    assert WithInfo(infos, ch.provider, ch.infos[id]) == infos;
    var quota: map<string, Time>, suspended: map<string, string> := map[], map[];
    assert quota - {ch.client} == quota && suspended - {ch.client} == suspended;
  }

  /** The replacement in closed form, where the client goes on listing the model. */
  lemma ReplacedForm(ch: Change, id: string, r: Registration)
    requires ch.newCounts.Keys <= ch.infos.Keys && Times(ch.newCounts, id) > 0 && 0 <= Times(ch.oldCounts, id) <= r.count
    ensures var k0, k := Times(ch.oldCounts, id), Times(ch.newCounts, id);
            var info := ch.infos[id];
            Replaced(ch, id, Some(r)) == Some(
              if k0 > 0 && r.count == k0 then
                Registration(info, WithInfo(map[], ch.provider, info), k, map[], Raised(map[], ch.provider, k), map[])
              else
                Registration(
                  info,
                  WithInfo(KeptInfos(r.infoByProvider, r.providers, ch.oldProvider, k0), ch.provider, info),
                  r.count - k0 + k,
                  if k0 > 0 then r.quota - {ch.client} else r.quota,
                  Raised(Lowered(r.providers, ch.oldProvider, k0), ch.provider, k),
                  if k0 > 0 then r.suspended - {ch.client} else r.suspended))
  {
  }

  /** The two closed forms differ in the marks at most. */
  lemma SameForms(ch: Change, id: string, r: Registration, total: nat, of: string -> nat)
    requires Counted(Some(r), total, of) && Contributes(ch, id, total, of)
    ensures var k0 := Times(ch.oldCounts, id);
            && (k0 > 0 && r.count == k0 ==>
                  && Lowered(r.providers, ch.oldProvider, k0) == map[]
                  && KeptInfos(r.infoByProvider, r.providers, ch.oldProvider, k0) == map[]
                  && (r.quota - {ch.client} == map[] && r.suspended - {ch.client} == map[]
                      <==> r.quota.Keys + r.suspended.Keys <= {ch.client}))
            && (k0 == 0 ==>
                  (r.quota - {ch.client} == r.quota && r.suspended - {ch.client} == r.suspended
                   <==> ch.client !in r.quota && ch.client !in r.suspended))
  {
    var k0 := Times(ch.oldCounts, id);
    if k0 > 0 && r.count == k0 {
      SoleClient(ch, id, r, total, of);
    }
    assert ch.client in r.quota ==> ch.client !in r.quota - {ch.client};
    assert ch.client in r.suspended ==> ch.client !in r.suspended - {ch.client};
  }

  /** When no other client lists the model, nothing is left without this one. */
  lemma SoleClient(ch: Change, id: string, r: Registration, total: nat, of: string -> nat)
    requires Counted(Some(r), total, of) && Contributes(ch, id, total, of) && r.count == Times(ch.oldCounts, id)
    ensures Lowered(r.providers, ch.oldProvider, r.count) == map[]
    ensures KeptInfos(r.infoByProvider, r.providers, ch.oldProvider, r.count) == map[]
    ensures r.quota - {ch.client} == map[] <==> r.quota.Keys <= {ch.client}
    ensures r.suspended - {ch.client} == map[] <==> r.suspended.Keys <= {ch.client}
  {
    assert forall p :: p in r.providers ==> p == ch.oldProvider && r.providers[p] <= r.count;
    if ch.oldProvider in r.providers {
      assert (r.providers - {ch.oldProvider}).Keys == {};
      assert (r.infoByProvider - {ch.oldProvider}).Keys == {};
    } else {
      assert r.providers.Keys == {} && r.infoByProvider.Keys == {};
    }
    assert (r.quota - {ch.client}).Keys == r.quota.Keys - {ch.client};
    assert (r.suspended - {ch.client}).Keys == r.suspended.Keys - {ch.client};
  }

  /** The reconciliation in closed form, where the client goes on listing the model. */
  lemma ReconciledForm(ch: Change, id: string, r: Registration, total: nat, of: string -> nat)
    requires ch.newCounts.Keys <= ch.infos.Keys && Times(ch.newCounts, id) > 0
    requires Counted(Some(r), total, of) && Contributes(ch, id, total, of)
    ensures var k0, k := Times(ch.oldCounts, id), Times(ch.newCounts, id);
            Reconciled(ch, id, Some(r)) == Some(Registration(
              ch.infos[id],
              WithInfo(KeptInfos(r.infoByProvider, r.providers, ch.oldProvider, k0), ch.provider, ch.infos[id]),
              r.count - k0 + k,
              r.quota - {ch.client},
              Raised(Lowered(r.providers, ch.oldProvider, k0), ch.provider, k),
              r.suspended - {ch.client}))
  {
    hide Lowered, Raised, KeptInfos, WithInfo, Contributes;
    SameProviders(ch, id, r.providers, total, of);
    SameInfos(ch, id, r.infoByProvider, r.providers, total, of);
    NobodyLeaves(r.infoByProvider, r.providers, Min(Times(ch.oldCounts, id), Times(ch.newCounts, id)));
    ContributesSome(ch, id, total, of);
    assert r.quota - {ch.client} - {ch.client} == r.quota - {ch.client};
    assert r.suspended - {ch.client} - {ch.client} == r.suspended - {ch.client};
  }

  lemma SameInfos(ch: Change, id: string, infos: map<string, ModelInfo>, providers: map<string, int>, total: nat, of: string -> nat)
    requires Contributes(ch, id, total, of) && Times(ch.newCounts, id) > 0 && id in ch.infos
    requires forall p :: p in providers <==> p != "" && of(p) > 0
    requires forall p :: p in providers ==> providers[p] == of(p)
    requires infos.Keys == providers.Keys
    ensures var k0, k := Times(ch.oldCounts, id), Times(ch.newCounts, id);
            var info := ch.infos[id];
            var out := if Moved(ch) then Lowered(providers, ch.oldProvider, Min(k0, k)) else providers;
            var outInfos := if Moved(ch) then KeptInfos(infos, providers, ch.oldProvider, Min(k0, k)) else infos;
            var dropped := if k < k0 then KeptInfos(outInfos, out, ch.oldProvider, k0 - k) else outInfos;
            var added := if k0 < k then WithInfo(dropped, ch.provider, info) else dropped;
            WithInfo(added, ch.provider, info) == WithInfo(KeptInfos(infos, providers, ch.oldProvider, k0), ch.provider, info)
  {
  }

  /** The client's old listings are among those counted, under its old provider only. */
  ghost predicate Contributes(ch: Change, id: string, total: nat, of: string -> nat) {
    var k0 := Times(ch.oldCounts, id);
    && k0 <= total
    && (ch.oldProvider != "" ==> k0 <= of(ch.oldProvider) <= total)
    && forall p :: p != ch.oldProvider ==> of(p) + k0 <= total
  }

  lemma NobodyLeaves(infos: map<string, ModelInfo>, providers: map<string, int>, n: nat)
    ensures Lowered(providers, "", n) == providers && KeptInfos(infos, providers, "", n) == infos
  {
  }

  lemma ContributesSome(ch: Change, id: string, total: nat, of: string -> nat)
    requires Contributes(ch, id, total, of)
    ensures Times(ch.oldCounts, id) <= total
  {
  }

  /** The provider counts after the five loops are those of taking all old listings out
      and putting all new ones in. */
  lemma SameProviders(ch: Change, id: string, providers: map<string, int>, total: nat, of: string -> nat)
    requires Contributes(ch, id, total, of)
    requires forall p :: p in providers <==> p != "" && of(p) > 0
    requires forall p :: p in providers ==> providers[p] == of(p)
    ensures var k0, k := Times(ch.oldCounts, id), Times(ch.newCounts, id);
            var out := if Moved(ch) then Lowered(providers, ch.oldProvider, Min(k0, k)) else providers;
            var dropped := if k < k0 then Lowered(out, ch.oldProvider, k0 - k) else out;
            var added := if k0 < k then Raised(dropped, ch.provider, k - k0) else dropped;
            var back := if Moved(ch) then Raised(added, ch.provider, Min(k0, k)) else added;
            back == Raised(Lowered(providers, ch.oldProvider, k0), ch.provider, k)
  {
    var k0, k := Times(ch.oldCounts, id), Times(ch.newCounts, id);
    if Moved(ch) {
      LoweredTwice(providers, ch.oldProvider, Min(k0, k), k0 - Min(k0, k));
      RaisedTwice(Lowered(providers, ch.oldProvider, k0), ch.provider, k - Min(k0, k), Min(k0, k));
    }
  }

  // ----- the counters stay true

  function Plus(of: string -> nat, p: string, n: nat): string -> nat {
    q => if q == p then of(q) + n else of(q)
  }

  function Minus(of: string -> nat, p: string, n: nat): string -> nat {
    q => if q == p && n <= of(q) then of(q) - n else of(q)
  }

  lemma AddCounted(reg: Option<Registration>, p: string, info: ModelInfo, n: nat, total: nat, of: string -> nat)
    requires Counted(reg, total, of) && n > 0 && (reg.None? ==> forall q :: of(q) == 0)
    ensures Counted(AddN(reg, p, info, n), total + n, Plus(of, p, n))
  {
  }

  lemma DropCounted(reg: Option<Registration>, client: string, p: string, n: nat, total: nat, of: string -> nat)
    requires Counted(reg, total, of) && n <= total && (p != "" ==> n <= of(p))
    ensures Counted(DropN(reg, client, p, n), total - n, Minus(of, p, n))
  {
  }

  /** Reconciliation and replacement agree on everything that is counted. */
  lemma SameCounters(ch: Change, id: string, reg: Option<Registration>, total: nat, of: string -> nat, total': nat, of': string -> nat)
    requires ch.newCounts.Keys <= ch.infos.Keys
    requires Counted(reg, total, of) && Contributes(ch, id, total, of)
    requires Counted(Replaced(ch, id, reg), total', of')
    ensures Counted(Reconciled(ch, id, reg), total', of')
  {
    hide Reconciled, Replaced, Lowered, Raised, KeptInfos, WithInfo, Contributes;
    ContributesSome(ch, id, total, of);
    if Times(ch.newCounts, id) == 0 {
      Withdrawn(ch, id, reg);
    } else if reg.None? {
      FirstListing(ch, id);
    } else {
      ReconciledForm(ch, id, reg.value, total, of);
      ReplacedForm(ch, id, reg.value);
      SameForms(ch, id, reg.value, total, of);
    }
  }
}
