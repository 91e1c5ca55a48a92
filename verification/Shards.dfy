/** The model shards of one provider (sdk/cockpit/auth/scheduler_shards.go) and their
    round-robin views (sdk/cockpit/auth/scheduler_roundrobin.go). The indexes hold entry
    IDs where the source holds pointers to the entries. */
module Shards {
  import opened Ordering
  import opened Credentials
  import opened ShardIndex
  import opened ShardCursors
  import opened Rotation

  class ReadyView {
    const flat: seq<string>
    var cursor: nat

    constructor (flat: seq<string>)
      ensures this.flat == flat && cursor == 0
    {
      this.flat, cursor := flat, 0;
    }

    method PickFirst(allowed: string -> bool) returns (picked: Option<string>)
      ensures IsFirstListed(flat, allowed, picked)
    {
      for k := 0 to |flat|
        invariant forall j :: 0 <= j < k ==> !allowed(flat[j])
      {
        if allowed(flat[k]) {
          return Some(flat[k]);
        }
      }
      return None;
    }

    method PickRoundRobin(allowed: string -> bool) returns (picked: Option<string>)
      modifies this`cursor
      ensures picked == TurnOf(flat, allowed, old(cursor))
      ensures cursor == if picked.Some? then Turn(Mask(flat, allowed), old(cursor)) + 1 else old(cursor)
    {
      if |flat| == 0 {
        return None;
      }
      ghost var mask := Mask(flat, allowed);
      ghost var turn := Turn(mask, cursor);
      var start := Modulo(cursor, |flat|);
      for offset := 0 to |flat|
        invariant turn == Scan(mask, start, offset)
        invariant cursor == old(cursor)
      {
        var index := Modulo(start + offset, |flat|);
        if allowed(flat[index]) {
          cursor := index + 1;
          return Some(flat[index]);
        }
      }
      return None;
    }
  }

  datatype ReadyBucket = ReadyBucket(all: ReadyView, ws: ReadyView)

  ghost function AllIds(buckets: map<int, ReadyBucket>): map<int, seq<string>> {
    map p | p in buckets :: buckets[p].all.flat
  }

  ghost function SocketIds(buckets: map<int, ReadyBucket>): map<int, seq<string>> {
    map p | p in buckets :: buckets[p].ws.flat
  }

  ghost function Views(buckets: map<int, ReadyBucket>): set<ReadyView> {
    (set p | p in buckets :: buckets[p].all) + (set p | p in buckets :: buckets[p].ws)
  }

  ghost function Standing(buckets: map<int, ReadyBucket>): ViewCursors
    reads Views(buckets)
  {
    ViewCursors(map p | p in buckets :: buckets[p].all.cursor, map p | p in buckets :: buckets[p].ws.cursor)
  }

  /** No view serves two purposes. */
  ghost predicate Apart(buckets: map<int, ReadyBucket>) {
    && (forall p, q :: p in buckets && q in buckets ==> buckets[p].all != buckets[q].ws)
    && (forall p, q :: p in buckets && q in buckets && p != q ==> buckets[p].all != buckets[q].all && buckets[p].ws != buckets[q].ws)
  }

  ghost predicate AtZero(buckets: map<int, ReadyBucket>)
    reads Views(buckets)
  {
    forall p :: p in buckets ==> buckets[p].all.cursor == 0 && buckets[p].ws.cursor == 0
  }

  /** Buckets of views that nothing else uses stay apart. */
  lemma OneMoreApart(built: map<int, ReadyBucket>, priority: int, bucket: ReadyBucket)
    requires Apart(built) && AtZero(built)
    requires bucket.all !in Views(built) && bucket.ws !in Views(built)
    requires bucket.all != bucket.ws && bucket.all.cursor == 0 && bucket.ws.cursor == 0
    ensures Apart(built[priority := bucket]) && AtZero(built[priority := bucket])
    ensures Views(built[priority := bucket]) <= Views(built) + {bucket.all, bucket.ws}
  {
    forall p | p in built ensures built[p].all in Views(built) && built[p].ws in Views(built) {}
  }

  lemma NothingBuilt(es: Entries)
    ensures BucketsOf(Index(AllIds(map[]), SocketIds(map[]), [], []), es, {})
    ensures Apart(map[]) && AtZero(map[]) && Views(map[]) == {}
  {
  }

  lemma StandingAtStart(buckets: map<int, ReadyBucket>, es: Entries)
    requires AtZero(buckets) && Priorities(es) == buckets.Keys
    ensures Standing(buckets) == AtStart(es)
  {
    assert Standing(buckets).all == AtStart(es).all;
  }

  /** `cursors` says where the views stand, but for one that has moved since. */
  ghost predicate StandingBut(buckets: map<int, ReadyBucket>, cursors: ViewCursors, moved: set<ReadyView>)
    reads Views(buckets)
  {
    && cursors.all.Keys == cursors.sockets.Keys == buckets.Keys
    && (forall p :: p in buckets ==> buckets[p].all in moved || buckets[p].all.cursor == cursors.all[p])
    && (forall p :: p in buckets ==> buckets[p].ws in moved || buckets[p].ws.cursor == cursors.sockets[p])
  }

  lemma StandingMeans(buckets: map<int, ReadyBucket>)
    ensures StandingBut(buckets, Standing(buckets), {})
  {
  }

  /** Two readings of the same cursors, but for one moved view. */
  lemma AllButOne(before: map<int, nat>, after: map<int, nat>, priority: int)
    requires before.Keys == after.Keys && priority in after
    requires forall p :: p in after && p != priority ==> after[p] == before[p]
    ensures after == before[priority := after[priority]]
  {
    var moved := before[priority := after[priority]];
    assert forall p :: p in moved <==> p in after;
    assert forall p :: p in after ==> moved[p] == after[p];
  }

  lemma OneMoved(buckets: map<int, ReadyBucket>, before: ViewCursors, after: ViewCursors, priority: int, view: ReadyView)
    requires Apart(buckets) && priority in buckets && (view == buckets[priority].all || view == buckets[priority].ws)
    requires StandingBut(buckets, before, {view}) && StandingBut(buckets, after, {})
    ensures buckets[priority].all != buckets[priority].ws
    ensures after == if view == buckets[priority].ws then before.(sockets := before.sockets[priority := view.cursor])
                     else before.(all := before.all[priority := view.cursor])
    ensures view.cursor == (if view == buckets[priority].ws then before.sockets else before.all)[priority] ==> after == before
  {
    AllButOne(before.all, after.all, priority);
    AllButOne(before.sockets, after.sockets, priority);
  }

  lemma GrownIds(es: Entries, built: map<int, ReadyBucket>, priority: int, bucket: ReadyBucket, ids: seq<string>)
    requires forall id :: id in ids ==> id in es
    requires bucket.all.flat == ids && bucket.ws.flat == WithSockets(es, ids)
    ensures var grown := built[priority := bucket];
            Index(AllIds(grown), SocketIds(grown), [], [])
              == AddedBucket(Index(AllIds(built), SocketIds(built), [], []), es, priority, ids)
  {
    var grown := built[priority := bucket];
    assert AllIds(grown) == AllIds(built)[priority := ids];
    assert SocketIds(grown) == SocketIds(built)[priority := WithSockets(es, ids)];
  }

  class ModelScheduler {
    const modelKey: ModelName
    var entries: map<string, Entry>
    var priorityOrder: seq<int>
    var readyByPriority: map<int, ReadyBucket>
    var blocked: seq<string>
    ghost var Repr: set<object>

    ghost function IndexView(): Index
      reads this
    {
      Index(AllIds(readyByPriority), SocketIds(readyByPriority), priorityOrder, blocked)
    }

    ghost function Cursors(): ViewCursors
      reads this, Repr
    {
      if Views(readyByPriority) <= Repr then Standing(readyByPriority) else ViewCursors(map[], map[])
    }

    /** Where the views stand once the expired entries are promoted: a promotion that changes
        anything builds new views. */
    ghost function CursorsAt(now: Time): ViewCursors
      reads this, Repr
    {
      var promoted := PromoteAll(entries, modelKey, now);
      if promoted == entries then Cursors() else AtStart(promoted)
    }

    ghost predicate Valid(clock: Time)
      reads this, Repr
      ensures Valid(clock) ==> this in Repr
    {
      && this in Repr
      && Views(readyByPriority) <= Repr
      && Apart(readyByPriority)
      && IsIndexOf(IndexView(), entries)
      && forall id :: id in entries ==> entries[id].meta.auth.id == id && Faithful(entries[id], modelKey, clock)
    }

    constructor (modelKey: ModelName)
      ensures Valid(0) && fresh(Repr)
      ensures this.modelKey == modelKey && entries == map[] && Cursors() == AtStart(map[])
    {
      this.modelKey := modelKey;
      entries, priorityOrder, readyByPriority, blocked := map[], [], map[], [];
      Repr := {this};
    }

    /** What held up to one instant holds up to every later one. */
    lemma Later(t: Time, u: Time)
      requires Valid(t) && t <= u
      ensures Valid(u)
    {
    }

    /** Sort the entries into priority buckets and the blocked list by their states. */
    method CollectBuckets() returns (buckets: map<int, set<string>>, held: set<string>)
      ensures AreBuckets(buckets, entries) && held == Held(entries)
    {
      buckets, held := map[], {};
      var todo := entries.Keys;
      while todo != {}
        invariant todo <= entries.Keys
        invariant AreBuckets(buckets, entries - todo)
        invariant held == Held(entries - todo)
      {
        var id :| id in todo;
        var entry := entries[id];
        BucketStep(entries, todo, id);
        todo := todo - {id};
        if entry.state == Ready {
          var priority := entry.meta.auth.priority;
          var bucket := (if priority in buckets then buckets[priority] else {}) + {id};
          buckets := buckets[priority := bucket];
        } else if entry.state == Cooling || entry.state == Waiting {
          held := held + {id};
        }
      }
      assert entries - todo == entries;
    }

    method BuildReadyBucket(ids: seq<string>) returns (bucket: ReadyBucket)
      requires forall id :: id in ids ==> id in entries
      ensures fresh(bucket.all) && fresh(bucket.ws) && bucket.all != bucket.ws
      ensures bucket.all.cursor == 0 && bucket.ws.cursor == 0
      ensures bucket.all.flat == ids && bucket.ws.flat == WithSockets(entries, ids)
    {
      var ws := [];
      for k := 0 to |ids|
        invariant ws == WithSockets(entries, ids[..k])
      {
        assert ids[..k + 1] == ids[..k] + [ids[k]];
        if entries[ids[k]].meta.auth.websockets {
          ws := ws + [ids[k]];
        }
      }
      assert ids[..|ids|] == ids;
      var allView := new ReadyView(ids);
      var wsView := new ReadyView(ws);
      bucket := ReadyBucket(allView, wsView);
    }

    method AddBucket(built: map<int, ReadyBucket>, priority: int, ids: seq<string>, ghost done: set<int>)
      returns (grown: map<int, ReadyBucket>)
      requires BucketsOf(Index(AllIds(built), SocketIds(built), [], []), entries, done) && Apart(built) && AtZero(built)
      requires Ordering.Lists(ids, ReadyAt(entries, priority), Before)
      ensures BucketsOf(Index(AllIds(grown), SocketIds(grown), [], []), entries, done + {priority}) && Apart(grown) && AtZero(grown)
      ensures fresh(Views(grown) - Views(built))
    {
      hide BucketsOf, Apart, AllIds, SocketIds, Ordering.Sorted;
      BucketAdded(Index(AllIds(built), SocketIds(built), [], []), entries, done, priority, ids);
      var bucket := BuildReadyBucket(ids);
      GrownIds(entries, built, priority, bucket, ids);
      OneMoreApart(built, priority, bucket);
      grown := built[priority := bucket];
    }

    method BuildBuckets(buckets: map<int, set<string>>) returns (built: map<int, ReadyBucket>)
      requires AreBuckets(buckets, entries)
      ensures BucketsOf(Index(AllIds(built), SocketIds(built), [], []), entries, buckets.Keys)
      ensures fresh(Views(built))
      ensures Apart(built) && AtZero(built)
    {
      hide BucketsOf, Apart, AtZero, AllIds, SocketIds;
      NothingBuilt(entries);
      built := map[];
      var todo := buckets.Keys;
      assert buckets.Keys - todo == {};
      while todo != {}
        invariant todo <= buckets.Keys
        invariant BucketsOf(Index(AllIds(built), SocketIds(built), [], []), entries, buckets.Keys - todo)
        invariant fresh(Views(built))
        invariant Apart(built) && AtZero(built)
      {
        ghost var some := Witness(todo);
        var priority :| priority in todo;
        var ids := SortIds(buckets[priority]);
        ghost var done := buckets.Keys - todo;
        built := AddBucket(built, priority, ids, done);
        todo := todo - {priority};
        assert buckets.Keys - todo == done + {priority};
      }
      assert buckets.Keys - todo == buckets.Keys;
    }

    /** rebuildIndexesLocked: every index afresh from the entries. */
    method RebuildIndexes()
      modifies this`readyByPriority, this`priorityOrder, this`blocked, this`Repr
      ensures IsIndexOf(IndexView(), entries) && Apart(readyByPriority)
      ensures Cursors() == AtStart(entries)
      ensures old(Repr) <= Repr && fresh(Repr - old(Repr))
      ensures Views(readyByPriority) <= Repr
    {
      hide AreBuckets, BucketsOf, IsIndexOf, Lists, Held, Descending, ByRetry, RetryTimes, Apart, AtZero, Priorities, AtStart, Standing;
      var buckets, held := CollectBuckets();
      readyByPriority := BuildBuckets(buckets);
      priorityOrder := SortDescending(buckets.Keys);
      blocked := SortByRetry(held, RetryTimes(entries));
      Repr := Repr + Views(readyByPriority);
      Assembled(Index(AllIds(readyByPriority), SocketIds(readyByPriority), [], []), entries, buckets, priorityOrder, blocked);
      PrioritiesListed(IndexView(), entries);
      StandingAtStart(readyByPriority, entries);
    }

    /** upsertEntryLocked: refresh or insert one entry; rebuild unless nothing that the
        indexes depend on has changed. */
    method UpsertEntry(meta: Meta, now: Time)
      requires Valid(now)
      modifies this
      ensures Valid(now) && fresh(Repr - old(Repr))
      ensures entries == old(entries)[meta.auth.id := Evaluate(meta, modelKey, now)]
      ensures Cursors() == if meta.auth.id in old(entries) && SamePlace(old(entries)[meta.auth.id], entries[meta.auth.id])
                           then old(Cursors()) else AtStart(entries)
    {
      hide IsIndexOf, IsBlocked, StateOf, RetryOf;
      var id := meta.auth.id;
      var entry := Evaluated(meta, now);
      var previous := if id in entries then Some(entries[id]) else None;
      ghost var es := entries;
      entries := entries[id := entry];
      if previous.Some? && previous.value.state == entry.state && previous.value.nextRetryAt == entry.nextRetryAt
         && previous.value.meta.auth.priority == meta.auth.priority
         && previous.value.meta.auth.websockets == meta.auth.websockets {
        SkippedRebuild(IndexView(), es, id, entry);
        return;
      }
      RebuildIndexes();
    }

    /** The state switch of upsertEntryLocked and promoteExpiredLocked. */
    method Evaluated(meta: Meta, now: Time) returns (entry: Entry)
      ensures entry == Evaluate(meta, modelKey, now)
    {
      var v := IsBlocked(meta.auth, modelKey, now);
      entry := Entry(meta, Ready, 0);
      if !v.blocked {
        entry := entry.(state := Ready);
      } else if v.reason == Cooldown {
        entry := entry.(state := Cooling, nextRetryAt := v.next);
      } else if v.reason == Off {
        entry := entry.(state := SwitchedOff);
      } else {
        entry := entry.(state := Waiting, nextRetryAt := v.next);
      }
    }

    /** removeEntryLocked. */
    method RemoveEntry(id: string, ghost clock: Time)
      requires Valid(clock)
      modifies this
      ensures Valid(clock) && fresh(Repr - old(Repr))
      ensures entries == old(entries) - {id}
      ensures Cursors() == if id in old(entries) then AtStart(entries) else old(Cursors())
    {
      if id !in entries {
        return;
      }
      entries := entries - {id};
      RebuildIndexes();
    }

    /** promoteExpiredLocked: evaluate again the blocked entries whose retry time has come. */
    method PromoteExpired(now: Time)
      requires Valid(now)
      modifies this
      ensures Valid(now) && fresh(Repr - old(Repr))
      ensures entries == PromoteAll(old(entries), modelKey, now) && Cursors() == old(CursorsAt(now))
    {
      hide IsIndexOf, Evaluate, Apart, AtStart;
      HeldList(IndexView(), entries);
      var changed := ReevaluateBlocked(now);
      PromotedEntries(old(entries), modelKey, now);
      if changed {
        RebuildIndexes();
      }
    }

    method ReevaluateBlocked(now: Time) returns (changed: bool)
      requires forall id :: id in blocked <==> id in Held(entries)
      modifies this`entries
      ensures entries == PromoteAll(old(entries), modelKey, now)
      ensures changed <==> entries != old(entries)
    {
      changed := false;
      ghost var es := entries;
      for k := 0 to |blocked|
        invariant entries == PromoteSome(es, blocked[..k], modelKey, now)
        invariant !changed ==> entries == es
        invariant changed ==> entries != es
      {
        var id := blocked[k];
        assert id in Held(es);
        var entry := entries[id];
        assert blocked[..k + 1] == blocked[..k] + [id];
        if entry.nextRetryAt != 0 && entry.nextRetryAt <= now {
          var again := Evaluated(entry.meta, now);
          entries := entries[id := again];
          changed := true;
        }
      }
      assert blocked[..|blocked|] == blocked;
    }

    // ----- lookups; the caller has promoted the expired entries

    /** What taking a turn in the chosen view, which stood at `cursor`, does to the shard's
        cursors. */
    lemma Rotated(clock: Time, priority: int, preferWebsocket: bool, allowed: string -> bool, before: ViewCursors, view: ReadyView,
                  cursor: nat, picked: Option<Auth>)
      requires Valid(clock) && priority in readyByPriority
      requires var bucket := readyByPriority[priority]; view == if preferWebsocket && |bucket.ws.flat| > 0 then bucket.ws else bucket.all
      requires StandingBut(readyByPriority, before, {view})
      requires cursor == if view == readyByPriority[priority].ws then before.sockets[priority] else before.all[priority]
      requires (if picked.Some? then Some(picked.value.id) else None) == TurnOf(view.flat, allowed, cursor)
      requires view.cursor == if picked.Some? then Turn(Mask(view.flat, allowed), cursor) + 1 else cursor
      ensures Rotates(entries, priority, preferWebsocket, RoundRobin, allowed, before, Cursors(), picked)
    {
      hide IsIndexOf, Lists, TurnOf, Turn, Mask, ViewAt, Faithful, UsesSockets, Standing, Apart, Rotates;
      ViewShows(IndexView(), entries, priority, preferWebsocket, view.flat);
      SocketsListed(IndexView(), entries, priority, preferWebsocket);
      StandingMeans(readyByPriority);
      OneMoved(readyByPriority, before, Cursors(), priority, view);
      RotatesBy(view.flat, entries, priority, preferWebsocket, allowed, before, Cursors(), picked);
    }

    /** highestReadyPriorityLocked. */
    method HighestReadyPriority(preferWebsocket: bool, allowed: string -> bool) returns (best: Option<int>)
      requires IsIndexOf(IndexView(), entries)
      ensures IsHighestReady(entries, preferWebsocket, allowed, best)
    {
      ghost var order := priorityOrder;
      for k := 0 to |priorityOrder|
        invariant order == priorityOrder
        invariant forall j :: 0 <= j < k ==> Choices(entries, order[j], preferWebsocket, allowed) == {}
      {
        var priority := priorityOrder[k];
        PriorityListed(IndexView(), entries, priority);
        var bucket := readyByPriority[priority];
        var view := bucket.all;
        if preferWebsocket && |bucket.ws.flat| > 0 {
          view := bucket.ws;
        }
        ViewShows(IndexView(), entries, priority, preferWebsocket, view.flat);
        var picked := view.PickFirst(allowed);
        if picked.Some? {
          assert picked.value in Choices(entries, priority, preferWebsocket, allowed);
          HigherPriorities(IndexView(), entries, k, preferWebsocket, allowed);
          return Some(priority);
        }
      }
      HigherPriorities(IndexView(), entries, |priorityOrder|, preferWebsocket, allowed);
      return None;
    }

    /** pickReadyAtPriorityLocked. */
    method PickReadyAtPriority(preferWebsocket: bool, priority: int, strategy: Strategy, allowed: string -> bool,
                               ghost clock: Time)
      returns (picked: Option<Auth>)
      requires Valid(clock)
      modifies Repr - {this}
      ensures Valid(clock)
      ensures IsPick(entries, priority, preferWebsocket, strategy, allowed, picked)
      ensures Rotates(entries, priority, preferWebsocket, strategy, allowed, old(Cursors()), Cursors(), picked)
    {
      hide IsIndexOf, Lists, IsPick, IsFirstListed, TurnOf, ViewAt, Faithful, Turn, Mask, Choices, UsesSockets, Rotates;
      if priority !in readyByPriority {
        NoBucket(IndexView(), entries, priority, preferWebsocket, allowed);
        NothingRotates(entries, priority, preferWebsocket, strategy, allowed, Cursors());
        return None;
      }
      var bucket := readyByPriority[priority];
      var view := bucket.all;
      if preferWebsocket && |bucket.ws.flat| > 0 {
        view := bucket.ws;
      }
      ViewShows(IndexView(), entries, priority, preferWebsocket, view.flat);
      StandingMeans(readyByPriority);
      ghost var before, cursor := Cursors(), view.cursor;
      var id;
      if strategy == FillFirst {
        id := view.PickFirst(allowed);
        FirstIsPick(entries, view.flat, priority, preferWebsocket, allowed, id);
        FirstMovesNothing(entries, priority, preferWebsocket, allowed, before,
                          if id.Some? then Some(entries[id.value].meta.auth) else None);
      } else {
        TurnIsPick(entries, view.flat, priority, preferWebsocket, allowed, view.cursor);
        id := view.PickRoundRobin(allowed);
        Rotated(clock, priority, preferWebsocket, allowed, before, view, cursor,
                if id.Some? then Some(entries[id.value].meta.auth) else None);
      }
      if id.None? {
        return None;
      }
      return Some(entries[id.value].meta.auth);
    }

    /** pickReadyLocked. */
    method PickReady(preferWebsocket: bool, strategy: Strategy, allowed: string -> bool, now: Time)
      returns (picked: Option<Auth>)
      requires Valid(now)
      modifies Repr
      ensures Valid(now) && fresh(Repr - old(Repr))
      ensures entries == PromoteAll(old(entries), modelKey, now)
      ensures IsReadyPick(entries, preferWebsocket, strategy, allowed, picked)
      ensures RotatesReady(entries, preferWebsocket, strategy, allowed, old(CursorsAt(now)), Cursors(), picked)
    {
      hide IsIndexOf, Faithful, PromoteAll, IsHighestReady, IsPick, Rotates, Apart, Standing;
      PromoteExpired(now);
      var best := HighestReadyPriority(preferWebsocket, allowed);
      if best.None? {
        NoReadyPick(entries, preferWebsocket, strategy, allowed);
        return None;
      }
      picked := PickReadyAtPriority(preferWebsocket, best.value, strategy, allowed, now);
      ReadyPick(entries, preferWebsocket, strategy, allowed, best.value, picked);
      RotatesAtHighest(entries, preferWebsocket, strategy, allowed, best.value, old(CursorsAt(now)), Cursors(), picked);
    }

    /** availabilitySummaryLocked. */
    method AvailabilitySummary(allowed: string -> bool) returns (total: nat, cooling: nat, earliest: Time)
      ensures total == |Counted(entries, allowed)|
      ensures cooling == |CountedCooling(entries, allowed)|
      ensures IsEarliest(RetryTimes(entries), CountedCooling(entries, allowed), earliest)
    {
      total, cooling, earliest := 0, 0, 0;
      var todo := entries.Keys;
      while todo != {}
        invariant todo <= entries.Keys
        invariant total == |Counted(entries - todo, allowed)|
        invariant cooling == |CountedCooling(entries - todo, allowed)|
        invariant IsEarliest(RetryTimes(entries), CountedCooling(entries - todo, allowed), earliest)
      {
        hide IsEarliest, CountedCooling, Counted;
        ghost var some := Witness(todo);
        var id :| id in todo;
        CountStep(entries, todo, id, allowed);
        CountKnown(entries, todo, id, allowed);
        EarliestStep(RetryTimes(entries), CountedCooling(entries - todo, allowed), earliest, id);
        todo := todo - {id};
        var entry := entries[id];
        if !allowed(id) {
          continue;
        }
        total := total + 1;
        if entry.state != Cooling {
          continue;
        }
        cooling := cooling + 1;
        if entry.nextRetryAt != 0 && (earliest == 0 || entry.nextRetryAt < earliest) {
          earliest := entry.nextRetryAt;
        }
      }
      assert entries - todo == entries;
    }
  }
}
