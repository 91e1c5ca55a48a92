/** The credential watcher (internal/watcher/dispatcher.go), which turns snapshots and
    runtime updates into a queue of coalesced updates, and the service that applies them
    (sdk/cockpit/service_runtime.go). */
module UpdateQueue {
  import opened Credentials

  /** Fields that comparing snapshots leaves out. */
  datatype Stamps = Stamps(createdAt: Time, updatedAt: Time, lastRefreshedAt: Time, nextRefreshAfter: Time, runtime: string)

  const NO_STAMPS := Stamps(0, 0, 0, 0, "")

  datatype Snapshot = Snapshot(id: string, settings: string, quota: Quota, states: map<ModelName, ModelState>, stamps: Stamps)

  type Auths = map<string, Snapshot>

  datatype Action = Add | Modify | Delete

  datatype Update = Update(action: Action, id: string, auth: Option<Snapshot>)

  /** The key under which updates coalesce: the ID, or else the action and the time. IDs
      are assumed not to look like the latter. */
  datatype Key = ById(id: string) | Anonymous(action: Action, at: int)

  datatype Queue = Queue(order: seq<Key>, updates: map<Key, Update>)

  const NO_QUEUE := Queue([], map[])

  function Find(auths: Auths, id: string): Option<Snapshot> {
    if id in auths then Some(auths[id]) else None
  }

  function Normalized(a: Snapshot): Snapshot {
    a.(stamps := NO_STAMPS, quota := a.quota.(nextRecoverAt := 0))
  }

  predicate AuthEqual(a: Snapshot, b: Snapshot) {
    Normalized(a) == Normalized(b)
  }

  /** Two snapshots count as the same whatever their bookkeeping and their quota recovery
      time are. */
  lemma EqualMeans(a: Snapshot, b: Snapshot)
    ensures AuthEqual(a, b) <==>
              && a.id == b.id && a.settings == b.settings && a.states == b.states
              && a.quota.exceeded == b.quota.exceeded && a.quota.backoffLevel == b.quota.backoffLevel
  {
  }

  // ----- what updates do

  /** applyCoreAuthAddOrUpdate: bookkeeping times stay, and model states stay where the
      update brings none. */
  function Merge(existing: Option<Snapshot>, a: Snapshot): Snapshot {
    match existing
    case None => a
    case Some(e) =>
      a.(stamps := a.stamps.(createdAt := e.stamps.createdAt, lastRefreshedAt := e.stamps.lastRefreshedAt,
                             nextRefreshAfter := e.stamps.nextRefreshAfter),
         states := if |a.states| == 0 && |e.states| > 0 then e.states else a.states)
  }

  /** handleAuthUpdate. */
  function Apply(auths: Auths, u: Update): Auths {
    match u.action
    case Delete =>
      var id := TargetOf(u);
      if id == "" then auths else auths - {id}
    case _ =>
      if u.auth.None? || u.auth.value.id == "" then auths
      else auths[u.auth.value.id := Merge(Find(auths, u.auth.value.id), u.auth.value)]
  }

  function TargetOf(u: Update): string {
    if u.id == "" && u.auth.Some? then u.auth.value.id else u.id
  }

  function ApplyAll(auths: Auths, updates: seq<Update>): Auths
    decreases |updates|
  {
    if updates == [] then auths else ApplyAll(Apply(auths, updates[0]), updates[1..])
  }

  /** The instants that the consumer keeps for itself. */
  function Bookkeeping(a: Snapshot): (Time, Time, Time) {
    (a.stamps.createdAt, a.stamps.lastRefreshedAt, a.stamps.nextRefreshAfter)
  }

  predicate Removes(u: Update, id: string) {
    u.action == Delete && (u.id == id || (u.id == "" && u.auth.Some? && u.auth.value.id == id))
  }

  /** A credential is taken over whole at first; from then on its bookkeeping times stay,
      whatever else the updates bring, until one removes it. */
  lemma {:induction false} BookkeepingStays(auths: Auths, updates: seq<Update>, id: string)
    requires id != "" && id in auths && forall u :: u in updates ==> !Removes(u, id)
    ensures id in ApplyAll(auths, updates) && Bookkeeping(ApplyAll(auths, updates)[id]) == Bookkeeping(auths[id])
    decreases |updates|
  {
    if updates != [] {
      var after := Apply(auths, updates[0]);
      assert updates[0] in updates;
      assert id in after && Bookkeeping(after[id]) == Bookkeeping(auths[id]);
      BookkeepingStays(after, updates[1..], id);
    }
  }

  lemma TakenOverWhole(auths: Auths, u: Update)
    requires u.action != Delete && u.auth.Some? && u.auth.value.id != "" && u.auth.value.id !in auths
    ensures Apply(auths, u) == auths[u.auth.value.id := u.auth.value]
  {
  }

  function KeyOf(u: Update, at: int): Key {
    if u.id != "" then ById(u.id) else Anonymous(u.action, at)
  }

  /** One round of dispatchAuthUpdates: a later update of the same key takes the place of
      the earlier one. */
  function Enqueue(q: Queue, u: Update, at: int): Queue {
    var key := KeyOf(u, at);
    Queue(if key in q.updates then q.order else q.order + [key], q.updates[key := u])
  }

  function EnqueueAll(q: Queue, updates: seq<Update>, at: int): Queue {
    if updates == [] then q
    else Enqueue(EnqueueAll(q, updates[..|updates| - 1], at), updates[|updates| - 1], at + |updates| - 1)
  }

  /** nextPendingBatch. */
  function Drained(q: Queue): seq<Update>
    requires forall key :: key in q.order ==> key in q.updates
  {
    seq(|q.order|, i requires 0 <= i < |q.order| => q.updates[q.order[i]])
  }

  // ----- well-formed updates

  /** The update names the credential it is about, and an addition brings it. */
  predicate WellFormed(u: Update) {
    u.id != "" && (u.action.Delete? || (u.auth.Some? && u.auth.value.id == u.id))
  }

  /** Nothing happens anywhere on its account. */
  predicate Harmless(u: Update) {
    u.id == "" && (u.auth.None? || u.auth.value.id == "")
  }

  predicate Safe(u: Update) {
    WellFormed(u) || Harmless(u)
  }

  ghost predicate Filed(key: Key, u: Update) {
    match key
    case ById(id) => u.id == id && WellFormed(u)
    case Anonymous(_, _) => Harmless(u)
  }

  ghost predicate QueueTrue(q: Queue) {
    && (forall key :: key in q.order <==> key in q.updates)
    && (forall i, j :: 0 <= i < j < |q.order| ==> q.order[i] != q.order[j])
    && forall key :: key in q.updates ==> Filed(key, q.updates[key])
  }

  /** What a well-formed update makes of the credential it names. */
  function Effect(u: Update, before: Option<Snapshot>): Option<Snapshot>
    requires WellFormed(u)
  {
    if u.action.Delete? then None else Some(Merge(before, u.auth.value))
  }

  /** What a whole queue makes of one credential. */
  function QueueEffect(q: Queue, id: string, before: Option<Snapshot>): Option<Snapshot> {
    if ById(id) in q.updates && WellFormed(q.updates[ById(id)]) then Effect(q.updates[ById(id)], before) else before
  }

  lemma AppliedFiled(auths: Auths, key: Key, u: Update, id: string)
    requires Filed(key, u)
    ensures key == ById(id) ==> WellFormed(u)
    ensures Find(Apply(auths, u), id) == if key == ById(id) then Effect(u, Find(auths, id)) else Find(auths, id)
  {
  }

  /** Draining the queue and applying it does, at each ID, what the one update filed
      under that ID does. */
  lemma {:induction false} DrainedAt(q: Queue, auths: Auths, id: string)
    requires QueueTrue(q)
    ensures Find(ApplyAll(auths, Drained(q)), id) == QueueEffect(q, id, Find(auths, id))
    decreases |q.order|
  {
    hide Apply, Effect, Filed;
    if q.order != [] {
      var first := q.order[0];
      var rest := Queue(q.order[1..], q.updates - {first});
      RestTrue(q);
      assert Drained(q)[1..] == Drained(rest);
      AppliedFiled(auths, first, q.updates[first], id);
      DrainedAt(rest, Apply(auths, q.updates[first]), id);
    }
  }

  lemma RestTrue(q: Queue)
    requires QueueTrue(q) && q.order != []
    ensures QueueTrue(Queue(q.order[1..], q.updates - {q.order[0]}))
  {
    hide Filed;
    var rest := q.order[1..];
    assert q.order == [q.order[0]] + rest;
    forall i | 0 <= i < |rest| ensures rest[i] != q.order[0] {
      assert rest[i] == q.order[i + 1];
    }
  }

  lemma {:induction false} ApplyAllConcat(auths: Auths, first: seq<Update>, second: seq<Update>)
    ensures ApplyAll(auths, first + second) == ApplyAll(ApplyAll(auths, first), second)
    decreases |first|
  {
    if first == [] {
      assert first + second == second;
    } else {
      assert (first + second)[1..] == first[1..] + second;
      ApplyAllConcat(Apply(auths, first[0]), first[1..], second);
    }
  }

  lemma EnqueueTrue(q: Queue, u: Update, at: int)
    requires QueueTrue(q) && Safe(u)
    ensures QueueTrue(Enqueue(q, u, at))
  {
    var key := KeyOf(u, at);
    assert Filed(key, u);
    hide Filed, WellFormed, Harmless;
    if key !in q.updates {
      assert key !in q.order;
    }
  }

  // ----- convergence

  /** The consumer's copy of a credential follows the watcher's: it agrees in everything
      compared, except that model states may be the consumer's own where the watcher
      knows none. */
  predicate Follows(copy: Option<Snapshot>, truth: Option<Snapshot>) {
    match (copy, truth)
    case (None, None) => true
    case (Some(c), Some(t)) => AuthEqual(c.(states := t.states), t) && (|t.states| > 0 ==> c.states == t.states)
    case _ => false
  }

  datatype System = System(
    current: Auths,           // what the watcher last knew
    runtime: Auths,           // credentials announced at run time
    queue: Queue,             // pending updates
    inFlight: seq<Update>,    // taken from the queue and not applied yet
    consumer: Auths)          // what the service holds

  /** Applying what is under way and then what is pending brings the consumer to where
      the watcher is. */
  ghost predicate Converging(s: System) {
    && QueueTrue(s.queue)
    && forall id :: Follows(QueueEffect(s.queue, id, Find(ApplyAll(s.consumer, s.inFlight), id)), Find(s.current, id))
  }

  ghost predicate RuntimeKept(s: System) {
    && (forall id :: id in s.runtime ==> id != "" && s.runtime[id].id == id)
    && (forall id :: id in s.current ==> id != "" && s.current[id].id == id)
    && forall id :: id in s.runtime ==> id in s.current && s.current[id] == s.runtime[id]
  }

  /** Converging, spelled out. */
  lemma ConvergingMeans(s: System)
    requires Converging(s)
    ensures forall id :: Follows(Find(ApplyAll(s.consumer, s.inFlight + Drained(s.queue)), id), Find(s.current, id))
  {
    ApplyAllConcat(s.consumer, s.inFlight, Drained(s.queue));
    forall id ensures Follows(Find(ApplyAll(s.consumer, s.inFlight + Drained(s.queue)), id), Find(s.current, id)) {
      DrainedAt(s.queue, ApplyAll(s.consumer, s.inFlight), id);
    }
  }

  lemma MergeFollows(before: Option<Snapshot>, a: Snapshot)
    ensures Follows(Some(Merge(before, a)), Some(a))
  {
  }

  lemma FollowsEqual(copy: Option<Snapshot>, a: Snapshot, b: Snapshot)
    requires Follows(copy, Some(a)) && AuthEqual(a, b)
    ensures Follows(copy, Some(b))
  {
  }

  lemma Take(s: System)
    requires Converging(s)
    ensures Converging(s.(queue := NO_QUEUE, inFlight := s.inFlight + Drained(s.queue)))
  {
    hide Follows;
    ConvergingMeans(s);
  }

  lemma Deliver(s: System)
    requires Converging(s) && s.inFlight != []
    ensures Converging(s.(inFlight := s.inFlight[1..], consumer := Apply(s.consumer, s.inFlight[0])))
  {
    hide Follows, QueueTrue, Apply;
  }

  // ----- a runtime update

  /** dispatchRuntimeAuthUpdate on the watcher's maps. */
  function Announced(auths: Auths, u: Update): Auths {
    match u.action
    case Delete =>
      var id := TargetOf(u);
      if id == "" then auths else auths - {id}
    case _ =>
      if u.auth.None? || u.auth.value.id == "" then auths else auths[u.auth.value.id := u.auth.value]
  }

  function Told(s: System, u: Update, at: int): System {
    s.(current := Announced(s.current, u), runtime := Announced(s.runtime, u), queue := Enqueue(s.queue, u, at))
  }

  lemma ToldConverges(s: System, u: Update, at: int)
    requires Converging(s) && Safe(u)
    ensures Converging(Told(s, u, at))
  {
    var t := Told(s, u, at);
    EnqueueTrue(s.queue, u, at);
    hide QueueTrue, ApplyAll;
    forall id ensures Follows(QueueEffect(t.queue, id, Find(ApplyAll(t.consumer, t.inFlight), id)), Find(t.current, id)) {
      var before := Find(ApplyAll(s.consumer, s.inFlight), id);
      assert Follows(QueueEffect(s.queue, id, before), Find(s.current, id));
      if WellFormed(u) && id == u.id && !u.action.Delete? {
        MergeFollows(before, u.auth.value);
      }
    }
  }

  // ----- a refresh

  /** The usable entries of a snapshot; of two with the same ID the later one counts. */
  function Listed(auths: seq<Option<Snapshot>>): Auths {
    if auths == [] then map[]
    else
      var before := Listed(auths[..|auths| - 1]);
      match auths[|auths| - 1]
      case None => before
      case Some(a) => if a.id == "" then before else before[a.id := a]
  }

  function DiffAt(current: Auths, next: Auths, force: bool, id: string): Option<Update> {
    if id in next then
      if id !in current then Some(Update(Add, id, Some(next[id])))
      else if force || !AuthEqual(current[id], next[id]) then Some(Update(Modify, id, Some(next[id])))
      else None
    else if id in current then Some(Update(Delete, id, None))
    else None
  }

  /** The updates of prepareAuthUpdatesLocked, in whatever order the maps are visited. */
  ghost predicate IsDiff(updates: seq<Update>, current: Auths, next: Auths, force: bool) {
    && (forall i, j :: 0 <= i < j < |updates| ==> updates[i].id != updates[j].id)
    && (forall u :: u in updates ==> DiffAt(current, next, force, u.id) == Some(u))
    && forall id :: DiffAt(current, next, force, id).Some? ==> DiffAt(current, next, force, id).value in updates
  }

  ghost predicate ByTheirIDs(auths: Auths) {
    forall id :: id in auths ==> id != "" && auths[id].id == id
  }

  lemma {:induction false} ListedByIDs(auths: seq<Option<Snapshot>>)
    ensures ByTheirIDs(Listed(auths))
  {
    if auths != [] {
      ListedByIDs(auths[..|auths| - 1]);
    }
  }

  function Refreshed(s: System, listed: seq<Option<Snapshot>>, updates: seq<Update>, at: int): System {
    s.(current := Listed(listed) + s.runtime, queue := EnqueueAll(s.queue, updates, at))
  }

  /** `q'` has each update filed under its ID and is otherwise as `q`. */
  ghost predicate FiledAll(q: Queue, q': Queue, updates: seq<Update>) {
    && (forall u :: u in updates ==> ById(u.id) in q'.updates && q'.updates[ById(u.id)] == u)
    && forall id :: (forall u :: u in updates ==> u.id != id) ==> SameFile(q, q', id)
  }

  predicate SameFile(q: Queue, q': Queue, id: string) {
    && (ById(id) in q'.updates <==> ById(id) in q.updates)
    && (ById(id) in q.updates ==> q'.updates[ById(id)] == q.updates[ById(id)])
  }

  /** Enqueuing updates of distinct credentials files each one under its ID. */
  lemma {:induction false} EnqueueAllAt(q: Queue, updates: seq<Update>, at: int)
    requires QueueTrue(q) && forall u :: u in updates ==> WellFormed(u)
    requires forall i, j :: 0 <= i < j < |updates| ==> updates[i].id != updates[j].id
    ensures QueueTrue(EnqueueAll(q, updates, at)) && FiledAll(q, EnqueueAll(q, updates, at), updates)
    decreases |updates|
  {
    hide QueueTrue, FiledAll;
    if updates == [] {
      NoneFiled(q);
    } else {
      var n := |updates| - 1;
      EnqueueAllAt(q, updates[..n], at);
      EnqueueTrue(EnqueueAll(q, updates[..n], at), updates[n], at + n);
      OneFiled(q, EnqueueAll(q, updates[..n], at), updates, at + n);
    }
  }

  lemma NoneFiled(q: Queue)
    ensures FiledAll(q, q, [])
  {
  }

  lemma OneFiled(q: Queue, q': Queue, updates: seq<Update>, at: int)
    requires updates != [] && WellFormed(updates[|updates| - 1]) && FiledAll(q, q', updates[..|updates| - 1])
    requires forall i, j :: 0 <= i < j < |updates| ==> updates[i].id != updates[j].id
    ensures FiledAll(q, Enqueue(q', updates[|updates| - 1], at), updates)
  {
    var n := |updates| - 1;
    var q2 := Enqueue(q', updates[n], at);
    forall u | u in updates ensures ById(u.id) in q2.updates && q2.updates[ById(u.id)] == u {
      var i :| 0 <= i < |updates| && updates[i] == u;
      if i < n {
        assert u in updates[..n];
      }
    }
    forall id | forall u :: u in updates ==> u.id != id ensures SameFile(q, q2, id) {
      assert updates[n] in updates;
      assert forall u :: u in updates[..n] ==> u in updates;
      assert SameFile(q, q', id);
    }
  }

  lemma DiffWellFormed(updates: seq<Update>, current: Auths, next: Auths, force: bool)
    requires IsDiff(updates, current, next, force) && ByTheirIDs(current) && ByTheirIDs(next)
    ensures forall u :: u in updates ==> WellFormed(u)
  {
    forall u | u in updates ensures WellFormed(u) {
      assert DiffAt(current, next, force, u.id) == Some(u);
    }
  }

  lemma RefreshedAt(s: System, next: Auths, force: bool, updates: seq<Update>, q: Queue, id: string, before: Option<Snapshot>)
    requires IsDiff(updates, s.current, next, force) && forall u :: u in updates ==> WellFormed(u)
    requires FiledAll(s.queue, q, updates)
    requires Follows(QueueEffect(s.queue, id, before), Find(s.current, id))
    ensures Follows(QueueEffect(q, id, before), Find(next, id))
  {
    var d := DiffAt(s.current, next, force, id);
    if d.Some? {
      assert d.value in updates && d.value.id == id;
      assert q.updates[ById(id)] == d.value;
      if !d.value.action.Delete? {
        MergeFollows(before, next[id]);
      }
    } else {
      forall u | u in updates ensures u.id != id {
        assert DiffAt(s.current, next, force, u.id) == Some(u);
      }
      assert SameFile(s.queue, q, id);
      if id in next {
        FollowsEqual(QueueEffect(s.queue, id, before), s.current[id], next[id]);
      }
    }
  }

  lemma RefreshConverges(s: System, listed: seq<Option<Snapshot>>, force: bool, updates: seq<Update>, at: int)
    requires Converging(s) && RuntimeKept(s) && IsDiff(updates, s.current, Listed(listed) + s.runtime, force)
    ensures Converging(Refreshed(s, listed, updates, at)) && RuntimeKept(Refreshed(s, listed, updates, at))
  {
    hide QueueTrue, Follows, IsDiff, ApplyAll, FiledAll;
    ListedByIDs(listed);
    var next := Listed(listed) + s.runtime;
    var t := Refreshed(s, listed, updates, at);
    DiffWellFormed(updates, s.current, next, force);
    DistinctIDs(updates, s.current, next, force);
    EnqueueAllAt(s.queue, updates, at);
    forall id ensures Follows(QueueEffect(t.queue, id, Find(ApplyAll(t.consumer, t.inFlight), id)), Find(t.current, id)) {
      RefreshedAt(s, next, force, updates, t.queue, id, Find(ApplyAll(s.consumer, s.inFlight), id));
    }
  }

  lemma DistinctIDs(updates: seq<Update>, current: Auths, next: Auths, force: bool)
    requires IsDiff(updates, current, next, force)
    ensures forall i, j :: 0 <= i < j < |updates| ==> updates[i].id != updates[j].id
  {
  }

  lemma ToldKeepsRuntime(s: System, u: Update, at: int)
    requires RuntimeKept(s)
    ensures RuntimeKept(Told(s, u, at))
  {
  }

  // ----- which runtime updates are safe

  const START := System(map[], map[], NO_QUEUE, [], map[])

  /** A run of runtime updates before anything is delivered. */
  function ToldAll(s: System, updates: seq<Update>): System {
    if updates == [] then s
    else Told(ToldAll(s, updates[..|updates| - 1]), updates[|updates| - 1], |updates| - 1)
  }

  /** Once everything is delivered the consumer is where the watcher is. */
  ghost predicate Arrives(s: System) {
    && (forall key :: key in s.queue.order ==> key in s.queue.updates)
    && forall id :: Follows(Find(ApplyAll(s.consumer, s.inFlight + Drained(s.queue)), id), Find(s.current, id))
  }

  lemma {:induction false} SafeRunConverges(s: System, updates: seq<Update>)
    requires Converging(s) && forall u :: u in updates ==> Safe(u)
    ensures Converging(ToldAll(s, updates))
    decreases |updates|
  {
    if updates != [] {
      SafeRunConverges(s, updates[..|updates| - 1]);
      ToldConverges(ToldAll(s, updates[..|updates| - 1]), updates[|updates| - 1], |updates| - 1);
    }
  }

  lemma ToldTwo(u: Update, v: Update)
    ensures ToldAll(START, [u, v]) == Told(Told(START, u, 0), v, 1)
  {
    assert [u, v][..1] == [u] && [u][..0] == [];
    assert ToldAll(START, [u]) == Told(ToldAll(START, []), u, 0);
  }

  lemma ToldThree(u: Update, v: Update, w: Update)
    ensures ToldAll(START, [u, v, w]) == Told(Told(Told(START, u, 0), v, 1), w, 2)
  {
    ToldTwo(u, v);
    assert [u, v, w][..2] == [u, v];
  }

  lemma AppliedTwo(auths: Auths, u: Update, v: Update)
    ensures ApplyAll(auths, [u, v]) == Apply(Apply(auths, u), v)
  {
    assert [u, v][1..] == [v] && [v][1..] == [];
    assert ApplyAll(Apply(auths, u), [v]) == ApplyAll(Apply(Apply(auths, u), v), []);
  }

  /** An update without its ID coalesces with nothing, so a later update of the same
      credential may be applied before it. */
  lemma NamelessDiverges(u: Update, x: Snapshot)
    requires u.id == "" && u.auth.Some? && u.auth.value.id == x.id != "" && x.settings != u.auth.value.settings
    ensures !Arrives(ToldAll(START, [Update(Add, x.id, Some(x)), u, Update(Add, x.id, Some(x))]))
  {
    var add := Update(Add, x.id, Some(x));
    ToldThree(add, u, add);
    var s := ToldAll(START, [add, u, add]);
    assert s.inFlight + Drained(s.queue) == [add, u];
    AppliedTwo(map[], add, u);
    assert Find(s.current, x.id) == Some(x);
    assert !Follows(Find(Apply(Apply(map[], add), u), x.id), Some(x));
  }

  /** An addition that does not bring the credential it names displaces a pending one
      that does. */
  lemma MisnamedDiverges(u: Update)
    requires u.id != "" && !u.action.Delete? && (u.auth.None? || u.auth.value.id != u.id)
    ensures !Arrives(ToldAll(START, [Update(Add, u.id, Some(Snapshot(u.id, "", NO_QUOTA, map[], NO_STAMPS))), u]))
  {
    var y := Snapshot(u.id, "", NO_QUOTA, map[], NO_STAMPS);
    var add := Update(Add, u.id, Some(y));
    ToldTwo(add, u);
    var s := ToldAll(START, [add, u]);
    assert s.inFlight + Drained(s.queue) == [u];
    assert Find(s.current, u.id) == Some(y);
    assert ApplyAll(map[], [u]) == Apply(map[], u);
    assert !Follows(Find(Apply(map[], u), u.id), Some(y));
  }

  /** A runtime update is safe among well-formed ones exactly when it is well-formed or
      about nothing. */
  lemma SafeExactly(u: Update)
    ensures Safe(u) <==> forall before, after ::
      (forall v :: v in before + after ==> WellFormed(v)) ==> Arrives(ToldAll(START, before + [u] + after))
  {
    if Safe(u) {
      forall before: seq<Update>, after: seq<Update> | forall v :: v in before + after ==> WellFormed(v)
        ensures Arrives(ToldAll(START, before + [u] + after)) {
        assert forall v :: v in before + [u] + after ==> v == u || v in before + after;
        SafeRunConverges(START, before + [u] + after);
        ConvergingMeans(ToldAll(START, before + [u] + after));
      }
    } else if u.id == "" {
      var x := u.auth.value.(settings := u.auth.value.settings + "x");
      NamelessDiverges(u, x);
      var add := Update(Add, x.id, Some(x));
      assert [add] + [u] + [add] == [add, u, add];
    } else {
      MisnamedDiverges(u);
      var add := Update(Add, u.id, Some(Snapshot(u.id, "", NO_QUOTA, map[], NO_STAMPS)));
      assert [add] + [u] + [] == [add, u];
    }
  }

  predicate BringsStates(u: Update) {
    u.auth.Some? && |u.auth.value.states| > 0
  }

  // ----- what coalescing changes

  /** The model states that applying every update in turn leaves at `id`, from `held`. */
  function StatesAfter(updates: seq<Update>, id: string, held: map<ModelName, ModelState>): map<ModelName, ModelState> {
    if updates == [] then held
    else
      var before := StatesAfter(updates[..|updates| - 1], id, held);
      var u := updates[|updates| - 1];
      if u.id != id then before
      else if u.action.Delete? then map[]
      else if u.auth.None? || |u.auth.value.states| == 0 then before
      else u.auth.value.states
  }

  /** The position of the last update of `id`, or -1. */
  function LastOf(updates: seq<Update>, id: string): (n: int)
    ensures -1 <= n < |updates|
    ensures n >= 0 ==> updates[n].id == id && forall i :: n < i < |updates| ==> updates[i].id != id
    ensures n < 0 ==> forall u :: u in updates ==> u.id != id
  {
    if updates == [] then -1
    else if updates[|updates| - 1].id == id then |updates| - 1
    else LastOf(updates[..|updates| - 1], id)
  }

  function Held(copy: Option<Snapshot>): map<ModelName, ModelState> {
    if copy.Some? then copy.value.states else map[]
  }

  lemma {:induction false} LastIsFiled(updates: seq<Update>, at: int, id: string)
    requires forall u :: u in updates ==> WellFormed(u)
    ensures var q := EnqueueAll(NO_QUEUE, updates, at);
            && QueueTrue(q)
            && (ById(id) in q.updates <==> LastOf(updates, id) >= 0)
            && (ById(id) in q.updates ==> q.updates[ById(id)] == updates[LastOf(updates, id)])
    decreases |updates|
  {
    if updates != [] {
      var n := |updates| - 1;
      LastIsFiled(updates[..n], at, id);
      EnqueueTrue(EnqueueAll(NO_QUEUE, updates[..n], at), updates[n], at + n);
    }
  }

  lemma ApplyLast(auths: Auths, updates: seq<Update>)
    requires updates != []
    ensures ApplyAll(auths, updates) == Apply(ApplyAll(auths, updates[..|updates| - 1]), updates[|updates| - 1])
  {
    var before, u := updates[..|updates| - 1], updates[|updates| - 1];
    ApplyAllConcat(auths, before, [u]);
    assert before + [u] == updates;
    assert ApplyAll(ApplyAll(auths, before), [u]) == ApplyAll(Apply(ApplyAll(auths, before), u), []);
  }

  lemma ApplyAt(auths: Auths, u: Update, id: string)
    requires WellFormed(u)
    ensures Find(Apply(auths, u), id) == if u.id == id then Effect(u, Find(auths, id)) else Find(auths, id)
  {
  }

  /** Applying every update in turn: the last one of the credential decides, upon what the
      ones before it left. */
  lemma {:induction false} InTurn(auths: Auths, updates: seq<Update>, id: string)
    requires forall u :: u in updates ==> WellFormed(u)
    ensures var n := LastOf(updates, id);
            && Find(ApplyAll(auths, updates), id) ==
                 (if n < 0 then Find(auths, id) else Effect(updates[n], Find(ApplyAll(auths, updates[..n]), id)))
            && Held(Find(ApplyAll(auths, updates), id)) == StatesAfter(updates, id, Held(Find(auths, id)))
    decreases |updates|
  {
    hide Apply, Effect, Find, WellFormed;
    if updates != [] {
      var m := |updates| - 1;
      InTurn(auths, updates[..m], id);
      ApplyLast(auths, updates);
      ApplyAt(ApplyAll(auths, updates[..m]), updates[m], id);
      assert WellFormed(updates[m]);
      AdditionBrings(updates[m]);
      if updates[m].id == id {
        EffectStates(updates[m], Find(ApplyAll(auths, updates[..m]), id));
      }
      if updates[m].id != id && LastOf(updates, id) >= 0 {
        assert updates[..m][..LastOf(updates, id)] == updates[..LastOf(updates, id)];
      }
    }
  }

  /** Delivering only the last of several updates of a credential ends in the same place
      as delivering them all, except for model states: those agree exactly when the last
      update deletes or brings its own, or when the skipped updates would have left what
      was held before. */
  lemma Coalescing(auths: Auths, updates: seq<Update>, at: int, id: string)
    requires forall u :: u in updates ==> WellFormed(u)
    ensures var q := EnqueueAll(NO_QUEUE, updates, at);
            QueueTrue(q)
            && var all, some := Find(ApplyAll(auths, updates), id), Find(ApplyAll(auths, Drained(q)), id);
               var n := LastOf(updates, id);
            && (all.Some? <==> some.Some?)
            && (all.Some? ==> AuthEqual(all.value.(states := map[]), some.value.(states := map[])))
            && (Held(all) == Held(some) <==>
                  n < 0 || updates[n].action.Delete? || BringsStates(updates[n])
                  || StatesAfter(updates[..n], id, Held(Find(auths, id))) == Held(Find(auths, id)))
  {
    var n := LastOf(updates, id);
    LastIsFiled(updates, at, id);
    DrainedAt(EnqueueAll(NO_QUEUE, updates, at), auths, id);
    hide QueueTrue, ApplyAll, EnqueueAll, StatesAfter;
    InTurn(auths, updates, id);
    if n >= 0 {
      InTurn(auths, updates[..n], id);
      assert WellFormed(updates[n]);
      EffectStates(updates[n], Find(ApplyAll(auths, updates[..n]), id));
      EffectStates(updates[n], Find(auths, id));
    }
  }

  lemma AdditionBrings(u: Update)
    requires WellFormed(u)
    ensures u.action.Delete? || u.auth.Some?
  {
  }

  lemma EffectStates(u: Update, before: Option<Snapshot>)
    requires WellFormed(u)
    ensures Held(Effect(u, before)) ==
      if u.action.Delete? then map[] else if |u.auth.value.states| > 0 then u.auth.value.states else Held(before)
  {
  }

  /** A deletion and a re-addition that coalesce keep the model states that delivering
      both would have dropped. */
  lemma CoalescingKeepsStates(x: Snapshot, state: ModelState)
    requires x.id != "" && x.states == map[]
    ensures var held: Auths := map[x.id := x.(states := map[NO_MODEL := state])];
            var updates := [Update(Delete, x.id, None), Update(Add, x.id, Some(x))];
            var q := EnqueueAll(NO_QUEUE, updates, 0);
            && QueueTrue(q)
            && Held(Find(ApplyAll(held, updates), x.id)) == map[]
            && Held(Find(ApplyAll(held, Drained(q)), x.id)) == map[NO_MODEL := state]
  {
    var held: Auths := map[x.id := x.(states := map[NO_MODEL := state])];
    var delete, add := Update(Delete, x.id, None), Update(Add, x.id, Some(x));
    LastIsFiled([delete, add], 0, x.id);
    DrainedAt(EnqueueAll(NO_QUEUE, [delete, add], 0), held, x.id);
    AppliedTwo(held, delete, add);
    assert LastOf([delete, add], x.id) == 1;
  }

  // ----- when the consumer ends with exactly what the watcher knows

  lemma SafeAt(auths: Auths, u: Update, id: string)
    requires Safe(u) && id != ""
    ensures Find(Apply(auths, u), id) == if WellFormed(u) && u.id == id then Effect(u, Find(auths, id)) else Find(auths, id)
  {
  }

  /** The model states that the consumer holds are those that the applied updates left. */
  lemma {:induction false} StatesHeld(applied: seq<Update>, id: string)
    requires id != "" && forall u :: u in applied ==> Safe(u)
    ensures Held(Find(ApplyAll(map[], applied), id)) == StatesAfter(applied, id, map[])
    decreases |applied|
  {
    hide Apply, Effect, Find;
    if applied == [] {
      NothingHeld(id);
    } else {
      var before, u := applied[..|applied| - 1], applied[|applied| - 1];
      StatesHeld(before, id);
      ApplyLast(map[], applied);
      assert Safe(u);
      SafeAt(ApplyAll(map[], before), u, id);
      if WellFormed(u) && u.id == id {
        AdditionBrings(u);
        EffectStates(u, Find(ApplyAll(map[], before), id));
      }
    }
  }

  lemma NothingHeld(id: string)
    ensures Held(Find(map[], id)) == map[]
  {
  }

  /** A consumer that follows the watcher has exactly the watcher's snapshot if and only if
      this brings model states, or the applied updates have left none. */
  lemma EqualExactly(applied: seq<Update>, id: string, truth: Option<Snapshot>)
    requires id != "" && (forall u :: u in applied ==> Safe(u)) && Follows(Find(ApplyAll(map[], applied), id), truth)
    ensures var copy := Find(ApplyAll(map[], applied), id);
            && (copy.Some? <==> truth.Some?)
            && (copy.Some? ==> (AuthEqual(copy.value, truth.value) <==>
                                  |truth.value.states| > 0 || StatesAfter(applied, id, map[]) == map[]))
  {
    StatesHeld(applied, id);
    hide ApplyAll, StatesAfter;
  }

  ghost predicate QueueFree(q: Queue) {
    forall key :: key in q.updates ==> !BringsStates(q.updates[key])
  }

  /** Nothing on its way brings model states. */
  ghost predicate StateFree(s: System) {
    && (forall id :: id in s.runtime ==> |s.runtime[id].states| == 0)
    && QueueFree(s.queue)
    && forall u :: u in s.inFlight ==> !BringsStates(u)
  }

  lemma {:induction false} NoStatesLeft(applied: seq<Update>, id: string)
    requires forall u :: u in applied ==> !BringsStates(u)
    ensures StatesAfter(applied, id, map[]) == map[]
    decreases |applied|
  {
    if applied != [] {
      assert !BringsStates(applied[|applied| - 1]);
      NoStatesLeft(applied[..|applied| - 1], id);
    }
  }

  lemma {:induction false} ListedStateFree(listed: seq<Option<Snapshot>>)
    requires forall a :: a in listed && a.Some? ==> |a.value.states| == 0
    ensures forall id :: id in Listed(listed) ==> |Listed(listed)[id].states| == 0
  {
    if listed != [] {
      assert listed[|listed| - 1] in listed;
      ListedStateFree(listed[..|listed| - 1]);
    }
  }

  lemma {:induction false} EnqueuedStateFree(q: Queue, updates: seq<Update>, at: int)
    requires QueueFree(q) && forall u :: u in updates ==> !BringsStates(u)
    ensures QueueFree(EnqueueAll(q, updates, at))
    decreases |updates|
  {
    hide BringsStates, QueueFree, Enqueue;
    if updates != [] {
      var before, u := updates[..|updates| - 1], updates[|updates| - 1];
      assert u in updates && forall v :: v in before ==> v in updates;
      EnqueuedStateFree(q, before, at);
      OneStateFree(EnqueueAll(q, before, at), u, at + |updates| - 1);
    }
  }

  lemma OneStateFree(q: Queue, u: Update, at: int)
    requires QueueFree(q) && !BringsStates(u)
    ensures QueueFree(Enqueue(q, u, at))
  {
    hide BringsStates;
  }

  lemma DiffStateFree(updates: seq<Update>, current: Auths, next: Auths, force: bool)
    requires IsDiff(updates, current, next, force) && forall id :: id in next ==> |next[id].states| == 0
    ensures forall u :: u in updates ==> !BringsStates(u)
  {
    hide AuthEqual;
    forall u | u in updates ensures !BringsStates(u) {
      assert DiffAt(current, next, force, u.id) == Some(u);
    }
  }

  lemma RefreshedStateFree(s: System, listed: seq<Option<Snapshot>>, force: bool, updates: seq<Update>, at: int)
    requires StateFree(s) && IsDiff(updates, s.current, Listed(listed) + s.runtime, force)
    requires forall a :: a in listed && a.Some? ==> |a.value.states| == 0
    ensures StateFree(Refreshed(s, listed, updates, at))
  {
    hide EnqueueAll, Listed, AuthEqual, IsDiff;
    var next := Listed(listed) + s.runtime;
    ListedStateFree(listed);
    DiffStateFree(updates, s.current, next, force);
    EnqueuedStateFree(s.queue, updates, at);
  }

  lemma ToldStateFree(s: System, u: Update, at: int)
    requires StateFree(s) && !BringsStates(u)
    ensures StateFree(Told(s, u, at))
  {
  }

  lemma TakenStateFree(s: System)
    requires StateFree(s) && QueueTrue(s.queue)
    ensures StateFree(s.(queue := NO_QUEUE, inFlight := s.inFlight + Drained(s.queue)))
  {
  }

  /** What is drained from a queue is safe. */
  lemma DrainedIsSafe(q: Queue)
    requires QueueTrue(q)
    ensures forall u :: u in Drained(q) ==> Safe(u)
  {
    forall i | 0 <= i < |q.order| ensures Safe(Drained(q)[i]) {
      assert Filed(q.order[i], q.updates[q.order[i]]);
    }
  }

  /** A credential that loses its model states keeps them in the consumer, and a refresh
      that finds the watcher's own snapshot unchanged sends nothing. */
  lemma StatesLinger(x: Snapshot, state: ModelState)
    requires x.id != "" && x.states == map[]
    ensures var add, change := Update(Add, x.id, Some(x.(states := map[NO_MODEL := state]))), Update(Modify, x.id, Some(x));
            var current, copy := Announced(Announced(map[], add), change), Find(ApplyAll(map[], [add, change]), x.id);
            && WellFormed(add) && WellFormed(change)
            && Find(current, x.id) == Some(x)
            && copy.Some? && copy.value.states == map[NO_MODEL := state] && !AuthEqual(copy.value, x)
            && IsDiff([], current, current, false)
  {
    var add, change := Update(Add, x.id, Some(x.(states := map[NO_MODEL := state]))), Update(Modify, x.id, Some(x));
    AppliedTwo(map[], add, change);
    assert NO_MODEL in map[NO_MODEL := state] && NO_MODEL !in x.states;
  }
}
