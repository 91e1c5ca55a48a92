/** What a model shard's indexes must be, given its entries, and what a lookup on it
    means: the value-level reading of sdk/cockpit/auth/scheduler_shards.go. */
module ShardIndex {
  import opened Ordering
  import opened Credentials
  import opened Rotation

  datatype Strategy = FillFirst | RoundRobin

  function Mask(ids: seq<string>, allowed: string -> bool): (mask: seq<bool>)
    ensures |mask| == |ids| && forall k :: 0 <= k < |ids| ==> mask[k] == allowed(ids[k])
  {
    seq(|ids|, k requires 0 <= k < |ids| => allowed(ids[k]))
  }

  /** The entries of one shard by credential ID. */
  type Entries = map<string, Entry>

  function ReadyAt(es: Entries, priority: int): set<string> {
    set id | id in es && es[id].state == Ready && es[id].meta.auth.priority == priority
  }

  function SocketsAt(es: Entries, priority: int): set<string> {
    set id | id in es && es[id].state == Ready && es[id].meta.auth.priority == priority && es[id].meta.auth.websockets
  }

  function Held(es: Entries): set<string> {
    set id | id in es && OnHold(es[id])
  }

  function RetryTimes(es: Entries): map<string, Time> {
    map id | id in es :: es[id].nextRetryAt
  }

  /** The order of the blocked list: earliest retry first, unset retries last, ties by ID. */
  predicate RetryBefore(retry: map<string, Time>, a: string, b: string) {
    var s := if a in retry then retry[a] else 0;
    var t := if b in retry then retry[b] else 0;
    if s == t then Before(a, b) else t == 0 || (s != 0 && s < t)
  }

  function ByRetry(retry: map<string, Time>): (string, string) -> bool {
    (a, b) => RetryBefore(retry, a, b)
  }

  function Descending(): (int, int) -> bool {
    (p, q) => p > q
  }

  lemma RetryIsOrder(retry: map<string, Time>)
    ensures StrictOrder(ByRetry(retry))
  {
    BeforeIsOrder();
    var less := ByRetry(retry);
    assert forall a, b :: less(a, b) == RetryBefore(retry, a, b);
  }

  lemma DescendingIsOrder()
    ensures StrictOrder(Descending())
  {
    var less := Descending();
    assert forall p, q :: less(p, q) == (p > q);
  }

  method SortByRetry(S: set<string>, retry: map<string, Time>) returns (s: seq<string>)
    ensures Lists(s, S, ByRetry(retry))
  {
    RetryIsOrder(retry);
    s := Sort(S, ByRetry(retry));
  }

  method SortDescending(S: set<int>) returns (s: seq<int>)
    ensures Lists(s, S, Descending())
  {
    DescendingIsOrder();
    s := Sort(S, Descending());
  }

  /** The four indexes, by ID; the round-robin cursors are no part of them. */
  datatype Index = Index(all: map<int, seq<string>>, sockets: map<int, seq<string>>,
                         order: seq<int>, held: seq<string>)

  ghost predicate IsIndexOf(ix: Index, es: Entries) {
    && (forall p :: p in ix.all <==> ReadyAt(es, p) != {})
    && ix.sockets.Keys == ix.all.Keys
    && (forall p :: p in ix.all ==> Lists(ix.all[p], ReadyAt(es, p), Before))
    && (forall p :: p in ix.all ==> Lists(ix.sockets[p], SocketsAt(es, p), Before))
    && Lists(ix.order, ix.all.Keys, Descending())
    && Lists(ix.held, Held(es), ByRetry(RetryTimes(es)))
  }

  /** The buckets of the priorities in `done` are right. */
  ghost predicate BucketsOf(ix: Index, es: Entries, done: set<int>) {
    && ix.all.Keys == ix.sockets.Keys == done
    && (forall p :: p in done ==> Lists(ix.all[p], ReadyAt(es, p), Before))
    && (forall p :: p in done ==> Lists(ix.sockets[p], SocketsAt(es, p), Before))
  }

  /** The ready entries by priority, and nothing under the other priorities. */
  ghost predicate AreBuckets(buckets: map<int, set<string>>, es: Entries) {
    && (forall p :: p in buckets <==> ReadyAt(es, p) != {})
    && (forall p :: p in buckets ==> buckets[p] == ReadyAt(es, p))
  }

  lemma Assembled(ix: Index, es: Entries, buckets: map<int, set<string>>, order: seq<int>, held: seq<string>)
    requires AreBuckets(buckets, es) && BucketsOf(ix, es, buckets.Keys)
    requires Lists(order, buckets.Keys, Descending()) && Lists(held, Held(es), ByRetry(RetryTimes(es)))
    ensures IsIndexOf(ix.(order := order, held := held), es)
  {
  }

  /** The entries determine the indexes: whatever is an index of them is the one a
      rebuild computes. */
  lemma IndexUnique(ix: Index, jx: Index, es: Entries)
    requires IsIndexOf(ix, es) && IsIndexOf(jx, es)
    ensures ix == jx
  {
    assert ix.all.Keys == jx.all.Keys by {
      assert forall p :: p in ix.all <==> p in jx.all;
    }
    forall p | p in ix.all ensures ix.all[p] == jx.all[p] && ix.sockets[p] == jx.sockets[p] {
      IdsUnique(ix.all[p], jx.all[p], ReadyAt(es, p));
      IdsUnique(ix.sockets[p], jx.sockets[p], SocketsAt(es, p));
    }
    PrioritiesUnique(ix.order, jx.order, ix.all.Keys);
    HeldUnique(ix.held, jx.held, es);
  }

  lemma IdsUnique(s: seq<string>, t: seq<string>, S: set<string>)
    requires Lists(s, S, Before) && Lists(t, S, Before)
    ensures s == t
  {
    BeforeIsOrder();
    ListsUnique(s, t, S, Before);
  }

  lemma PrioritiesUnique(s: seq<int>, t: seq<int>, S: set<int>)
    requires Lists(s, S, Descending()) && Lists(t, S, Descending())
    ensures s == t
  {
    DescendingIsOrder();
    ListsUnique(s, t, S, Descending());
  }

  lemma HeldUnique(s: seq<string>, t: seq<string>, es: Entries)
    requires Lists(s, Held(es), ByRetry(RetryTimes(es))) && Lists(t, Held(es), ByRetry(RetryTimes(es)))
    ensures s == t
  {
    RetryIsOrder(RetryTimes(es));
    ListsUnique(s, t, Held(es), ByRetry(RetryTimes(es)));
  }

  /** The websocket-enabled members of a list of entry IDs, in its order. */
  function WithSockets(es: Entries, ids: seq<string>): (ws: seq<string>)
    requires forall id :: id in ids ==> id in es
  {
    if ids == [] then []
    else
      var last := ids[|ids| - 1];
      WithSockets(es, ids[..|ids| - 1]) + if es[last].meta.auth.websockets then [last] else []
  }

  lemma WithSocketsAt(es: Entries, ids: seq<string>, priority: int)
    requires Lists(ids, ReadyAt(es, priority), Before)
    ensures Lists(WithSockets(es, ids), SocketsAt(es, priority), Before)
  {
    WithSocketsLists(es, ids);
    assert Sockets(es, ids) == SocketsAt(es, priority);
  }

  function AddedBucket(ix: Index, es: Entries, priority: int, ids: seq<string>): Index
    requires forall id :: id in ids ==> id in es
  {
    ix.(all := ix.all[priority := ids], sockets := ix.sockets[priority := WithSockets(es, ids)])
  }

  lemma BucketAdded(ix: Index, es: Entries, done: set<int>, priority: int, ids: seq<string>)
    requires BucketsOf(ix, es, done) && Lists(ids, ReadyAt(es, priority), Before)
    ensures BucketsOf(AddedBucket(ix, es, priority, ids), es, done + {priority})
  {
    WithSocketsAt(es, ids, priority);
  }

  function Sockets(es: Entries, ids: seq<string>): set<string>
    requires forall id :: id in ids ==> id in es
  {
    set id | id in ids && es[id].meta.auth.websockets
  }

  lemma {:induction false} WithSocketsLists(es: Entries, ids: seq<string>)
    requires (forall id :: id in ids ==> id in es) && Sorted(ids, Before)
    ensures Lists(WithSockets(es, ids), Sockets(es, ids), Before)
  {
    hide Lists;
    if ids == [] {
      NoneListed();
      assert Sockets(es, ids) == {};
    } else {
      var front, last := ids[..|ids| - 1], ids[|ids| - 1];
      assert ids == front + [last];
      WithSocketsLists(es, front);
      if !es[last].meta.auth.websockets {
        assert Sockets(es, ids) == Sockets(es, front) && WithSockets(es, ids) == WithSockets(es, front);
      } else {
        assert Sockets(es, ids) == Sockets(es, front) + {last};
        ListsMore(WithSockets(es, front), Sockets(es, front), Before, last);
      }
    }
  }

  /** How counting one more entry changes the buckets and the held set. */
  lemma BucketStep(es: Entries, todo: set<string>, id: string)
    requires id in es && id in todo
    ensures forall p :: ReadyAt(es - (todo - {id}), p) ==
              if es[id].state == Ready && p == es[id].meta.auth.priority then ReadyAt(es - todo, p) + {id}
              else ReadyAt(es - todo, p)
    ensures Held(es - (todo - {id})) == if OnHold(es[id]) then Held(es - todo) + {id} else Held(es - todo)
  {
  }

  lemma BucketsGrow(buckets: map<int, set<string>>, es: Entries, todo: set<string>, id: string)
    requires id in es && id in todo && AreBuckets(buckets, es - todo)
    ensures var p := es[id].meta.auth.priority;
            var bucket := (if p in buckets then buckets[p] else {}) + {id};
            AreBuckets(if es[id].state == Ready then buckets[p := bucket] else buckets, es - (todo - {id}))
  {
    BucketStep(es, todo, id);
  }

  /** The fields on which the indexes depend. */
  predicate SamePlace(d: Entry, e: Entry) {
    && d.state == e.state
    && d.nextRetryAt == e.nextRetryAt
    && d.meta.auth.priority == e.meta.auth.priority
    && d.meta.auth.websockets == e.meta.auth.websockets
  }

  /** Replacing an entry by one in the same place leaves the indexes right: the rebuild
      that an upsert skips would change nothing. */
  lemma SkippedRebuild(ix: Index, es: Entries, id: string, e: Entry)
    requires IsIndexOf(ix, es) && id in es && SamePlace(es[id], e)
    ensures IsIndexOf(ix, es[id := e])
  {
    var fs := es[id := e];
    forall p ensures ReadyAt(fs, p) == ReadyAt(es, p) && SocketsAt(fs, p) == SocketsAt(es, p) {}
    assert Held(fs) == Held(es);
    assert RetryTimes(fs) == RetryTimes(es);
  }

  // ----- promotion

  function PromoteAll(es: Entries, model: ModelName, now: Time): Entries {
    map id | id in es :: Promote(es[id], model, now)
  }

  function PromoteSome(es: Entries, ids: seq<string>, model: ModelName, now: Time): Entries {
    map id | id in es :: if id in ids then Promote(es[id], model, now) else es[id]
  }

  lemma HeldList(ix: Index, es: Entries)
    requires IsIndexOf(ix, es)
    ensures forall id :: id in ix.held <==> id in Held(es)
  {
  }

  lemma PromotedEntries(es: Entries, model: ModelName, now: Time)
    requires forall id :: id in es ==> es[id].meta.auth.id == id && Faithful(es[id], model, now)
    ensures var fs := PromoteAll(es, model, now);
            forall id :: id in fs ==> fs[id].meta.auth.id == id && Faithful(fs[id], model, now)
  {
  }

  // ----- lookups

  function ViewAt(es: Entries, priority: int, preferWebsocket: bool): set<string> {
    if preferWebsocket && SocketsAt(es, priority) != {} then SocketsAt(es, priority) else ReadyAt(es, priority)
  }

  function Choices(es: Entries, priority: int, preferWebsocket: bool, allowed: string -> bool): set<string> {
    set id | id in ViewAt(es, priority, preferWebsocket) && allowed(id)
  }

  /** `priority` is the highest one with a choice. */
  ghost predicate IsHighest(es: Entries, preferWebsocket: bool, allowed: string -> bool, priority: int) {
    && Choices(es, priority, preferWebsocket, allowed) != {}
    && forall p :: p > priority ==> Choices(es, p, preferWebsocket, allowed) == {}
  }

  /** The highest priority with a choice, or none when there is no choice at all. */
  ghost predicate IsHighestReady(es: Entries, preferWebsocket: bool, allowed: string -> bool, best: Option<int>) {
    match best
    case None => forall p :: Choices(es, p, preferWebsocket, allowed) == {}
    case Some(p) => IsHighest(es, preferWebsocket, allowed, p)
  }

  ghost predicate IsFirst(id: string, S: set<string>) {
    id in S && forall other :: other in S ==> other == id || Before(id, other)
  }

  lemma PriorityListed(ix: Index, es: Entries, priority: int)
    requires IsIndexOf(ix, es) && priority in ix.order
    ensures priority in ix.all && priority in ix.sockets
  {
  }

  /** The view that a lookup chooses at a priority lists that priority's view. */
  lemma ViewShows(ix: Index, es: Entries, priority: int, preferWebsocket: bool, flat: seq<string>)
    requires IsIndexOf(ix, es) && priority in ix.all && priority in ix.sockets
    requires flat == if preferWebsocket && |ix.sockets[priority]| > 0 then ix.sockets[priority] else ix.all[priority]
    ensures Lists(flat, ViewAt(es, priority, preferWebsocket), Before)
  {
    if |ix.sockets[priority]| > 0 {
      assert ix.sockets[priority][0] in SocketsAt(es, priority);
    }
  }

  /** When the first `k` priorities in the order have no choice, no priority above the
      next one has any. */
  lemma HigherPriorities(ix: Index, es: Entries, k: nat, preferWebsocket: bool, allowed: string -> bool)
    requires IsIndexOf(ix, es) && k <= |ix.order|
    requires forall j :: 0 <= j < k ==> Choices(es, ix.order[j], preferWebsocket, allowed) == {}
    ensures forall p :: (k < |ix.order| ==> p > ix.order[k]) ==> Choices(es, p, preferWebsocket, allowed) == {}
  {
    forall p | (k < |ix.order| ==> p > ix.order[k]) ensures Choices(es, p, preferWebsocket, allowed) == {} {
      if p in ix.all {
        assert p in ix.order;
        var j :| 0 <= j < |ix.order| && ix.order[j] == p;
        assert j < k;
      } else {
        assert ReadyAt(es, p) == {};
        assert SocketsAt(es, p) <= ReadyAt(es, p);
      }
    }
  }

  /** A pick at one priority: some choice, the first one when filling first; none only
      when there is no choice. */
  ghost predicate IsPick(es: Entries, priority: int, preferWebsocket: bool, strategy: Strategy, allowed: string -> bool,
                         picked: Option<Auth>)
  {
    var choices := Choices(es, priority, preferWebsocket, allowed);
    match picked
    case None => choices == {}
    case Some(auth) =>
      && auth.id in choices && auth.id in es && auth == es[auth.id].meta.auth
      && (strategy == FillFirst ==> IsFirst(auth.id, choices))
  }

  /** A pick at the highest priority with a choice. */
  ghost predicate IsReadyPick(es: Entries, preferWebsocket: bool, strategy: Strategy, allowed: string -> bool, picked: Option<Auth>) {
    match picked
    case None => forall p :: Choices(es, p, preferWebsocket, allowed) == {}
    case Some(_) => exists p :: IsHighest(es, preferWebsocket, allowed, p) && IsPick(es, p, preferWebsocket, strategy, allowed, picked)
  }

  lemma NoReadyPick(es: Entries, preferWebsocket: bool, strategy: Strategy, allowed: string -> bool)
    requires IsHighestReady(es, preferWebsocket, allowed, None)
    ensures IsReadyPick(es, preferWebsocket, strategy, allowed, None)
  {
  }

  lemma ReadyPick(es: Entries, preferWebsocket: bool, strategy: Strategy, allowed: string -> bool, p: int, picked: Option<Auth>)
    requires IsHighestReady(es, preferWebsocket, allowed, Some(p)) && IsPick(es, p, preferWebsocket, strategy, allowed, picked)
    ensures IsReadyPick(es, preferWebsocket, strategy, allowed, picked)
  {
  }

  /** The first accepted ID of a list. */
  ghost predicate IsFirstListed(flat: seq<string>, allowed: string -> bool, id: Option<string>) {
    match id
    case None => forall x :: x in flat ==> !allowed(x)
    case Some(x) => exists k :: 0 <= k < |flat| && x == flat[k] && allowed(x) && forall j :: 0 <= j < k ==> !allowed(flat[j])
  }

  /** The ID whose round-robin turn it is. */
  function TurnOf(flat: seq<string>, allowed: string -> bool, cursor: nat): Option<string> {
    var k := Turn(Mask(flat, allowed), cursor);
    if k < |flat| then Some(flat[k]) else None
  }

  lemma FirstIsPick(es: Entries, flat: seq<string>, priority: int, preferWebsocket: bool, allowed: string -> bool, id: Option<string>)
    requires forall x :: x in es ==> es[x].meta.auth.id == x
    requires Lists(flat, ViewAt(es, priority, preferWebsocket), Before) && IsFirstListed(flat, allowed, id)
    ensures id.Some? ==> id.value in es
    ensures IsPick(es, priority, preferWebsocket, FillFirst, allowed, if id.Some? then Some(es[id.value].meta.auth) else None)
  {
    if id.Some? {
      assert id.value in flat && id.value in ViewAt(es, priority, preferWebsocket);
      forall x | x in Choices(es, priority, preferWebsocket, allowed) ensures x == id.value || Before(id.value, x) {
        assert x in flat;
      }
    }
  }

  lemma TurnIsPick(es: Entries, flat: seq<string>, priority: int, preferWebsocket: bool, allowed: string -> bool, cursor: nat)
    requires forall x :: x in es ==> es[x].meta.auth.id == x
    requires Lists(flat, ViewAt(es, priority, preferWebsocket), Before)
    ensures var id := TurnOf(flat, allowed, cursor);
            && (id.Some? ==> id.value in es)
            && IsPick(es, priority, preferWebsocket, RoundRobin, allowed, if id.Some? then Some(es[id.value].meta.auth) else None)
  {
    var mask := Mask(flat, allowed);
    TurnFails(mask, cursor);
    assert Turn(mask, cursor) < |flat| ==> flat[Turn(mask, cursor)] in flat;
    assert forall x :: x in flat ==> x in ViewAt(es, priority, preferWebsocket);
    if Turn(mask, cursor) == |flat| {
      forall x | x in flat ensures !allowed(x) {
        var k :| 0 <= k < |flat| && flat[k] == x;
        assert mask[k] == allowed(x);
      }
    }
  }

  function Counted(es: Entries, allowed: string -> bool): set<string> {
    set id | id in es && allowed(id)
  }

  function CountedCooling(es: Entries, allowed: string -> bool): set<string> {
    set id | id in es && allowed(id) && es[id].state == Cooling
  }

  lemma CountStep(es: Entries, todo: set<string>, id: string, allowed: string -> bool)
    requires id in es && id in todo
    ensures Counted(es - (todo - {id}), allowed)
         == if allowed(id) then Counted(es - todo, allowed) + {id} else Counted(es - todo, allowed)
    ensures CountedCooling(es - (todo - {id}), allowed)
         == if allowed(id) && es[id].state == Cooling then CountedCooling(es - todo, allowed) + {id}
            else CountedCooling(es - todo, allowed)
  {
  }

  lemma NoBucket(ix: Index, es: Entries, priority: int, preferWebsocket: bool, allowed: string -> bool)
    requires IsIndexOf(ix, es) && priority !in ix.all
    ensures ViewAt(es, priority, preferWebsocket) == {} && Choices(es, priority, preferWebsocket, allowed) == {}
    ensures forall strategy :: IsPick(es, priority, preferWebsocket, strategy, allowed, None)
  {
    assert ReadyAt(es, priority) == {};
    assert SocketsAt(es, priority) <= ReadyAt(es, priority);
  }

  /** `t` is the least set retry time over the members of `S`; 0 when none is set. */
  ghost predicate IsEarliest(retry: map<string, Time>, S: set<string>, t: Time)
    requires S <= retry.Keys
  {
    && (t == 0 ==> forall id :: id in S ==> retry[id] == 0)
    && (t != 0 ==> exists id :: id in S && retry[id] == t)
    && (forall id :: id in S && retry[id] != 0 ==> t <= retry[id])
  }

  lemma CountKnown(es: Entries, todo: set<string>, id: string, allowed: string -> bool)
    requires id in es && id in todo
    ensures CountedCooling(es - todo, allowed) <= RetryTimes(es).Keys
    ensures id !in Counted(es - todo, allowed) && id !in CountedCooling(es - todo, allowed)
    ensures RetryTimes(es)[id] == es[id].nextRetryAt
  {
  }

  lemma EarliestStep(retry: map<string, Time>, S: set<string>, t: Time, id: string)
    requires S <= retry.Keys && id in retry && IsEarliest(retry, S, t)
    ensures IsEarliest(retry, S + {id}, if retry[id] != 0 && (t == 0 || retry[id] < t) then retry[id] else t)
  {
  }
}
