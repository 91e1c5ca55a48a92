/** The round-robin cursors of one shard's views (sdk/cockpit/auth/scheduler_roundrobin.go)
    as values, and what a lookup does to them. */
module ShardCursors {
  import opened Ordering
  import opened Credentials
  import opened ShardIndex
  import opened Rotation

  /** Where the views stand, by priority: the views of all ready entries, and those of the
      ready entries with a websocket. */
  datatype ViewCursors = ViewCursors(all: map<int, nat>, sockets: map<int, nat>)

  /** What one shard shows. */
  datatype ShardState = ShardState(entries: Entries, cursors: ViewCursors)

  /** The priorities that have a ready entry. */
  function Priorities(es: Entries): set<int> {
    set id | id in es && es[id].state == Ready :: es[id].meta.auth.priority
  }

  /** The cursors of views just built. */
  function AtStart(es: Entries): ViewCursors {
    var zeros := map p | p in Priorities(es) :: 0;
    ViewCursors(zeros, zeros)
  }

  lemma PrioritiesListed(ix: Index, es: Entries)
    requires IsIndexOf(ix, es)
    ensures Priorities(es) == ix.all.Keys
  {
    forall p ensures p in Priorities(es) <==> p in ix.all {
      assert p in ix.all <==> ReadyAt(es, p) != {};
      if p in Priorities(es) {
        var id :| id in es && es[id].state == Ready && es[id].meta.auth.priority == p;
        assert id in ReadyAt(es, p);
      }
    }
  }

  /** A lookup that prefers websockets goes by their view where there is one with an entry. */
  ghost predicate UsesSockets(es: Entries, priority: int, preferWebsocket: bool) {
    preferWebsocket && SocketsAt(es, priority) != {}
  }

  ghost function CursorIn(cursors: ViewCursors, es: Entries, priority: int, preferWebsocket: bool): nat {
    var views := if UsesSockets(es, priority, preferWebsocket) then cursors.sockets else cursors.all;
    if priority in views then views[priority] else 0
  }

  ghost function Moved(cursors: ViewCursors, es: Entries, priority: int, preferWebsocket: bool, cursor: nat): ViewCursors {
    if UsesSockets(es, priority, preferWebsocket) then cursors.(sockets := cursors.sockets[priority := cursor])
    else cursors.(all := cursors.all[priority := cursor])
  }

  ghost predicate InTurn(flat: seq<string>, es: Entries, priority: int, preferWebsocket: bool, allowed: string -> bool,
                         before: ViewCursors, after: ViewCursors, picked: Option<Auth>)
  {
    var cursor := CursorIn(before, es, priority, preferWebsocket);
    && (if picked.Some? then Some(picked.value.id) else None) == TurnOf(flat, allowed, cursor)
    && after == if picked.Some? then Moved(before, es, priority, preferWebsocket, Turn(Mask(flat, allowed), cursor) + 1) else before
  }

  /** Taking turns, a lookup at one priority returns the entry in turn in the sorted view and
      leaves the view's cursor behind it; no other cursor moves, and filling first moves none. */
  ghost predicate Rotates(es: Entries, priority: int, preferWebsocket: bool, strategy: Strategy, allowed: string -> bool,
                          before: ViewCursors, after: ViewCursors, picked: Option<Auth>)
  {
    if strategy == FillFirst then before == after
    else
      exists flat :: Lists(flat, ViewAt(es, priority, preferWebsocket), Before)
                     && InTurn(flat, es, priority, preferWebsocket, allowed, before, after, picked)
  }

  /** A lookup at the highest priority with a choice. */
  ghost predicate RotatesReady(es: Entries, preferWebsocket: bool, strategy: Strategy, allowed: string -> bool,
                               before: ViewCursors, after: ViewCursors, picked: Option<Auth>)
  {
    match picked
    case None => before == after
    case Some(auth) => Rotates(es, auth.priority, preferWebsocket, strategy, allowed, before, after, picked)
  }

  lemma SocketsListed(ix: Index, es: Entries, priority: int, preferWebsocket: bool)
    requires IsIndexOf(ix, es) && priority in ix.sockets
    ensures UsesSockets(es, priority, preferWebsocket) <==> preferWebsocket && |ix.sockets[priority]| > 0
  {
    if ix.sockets[priority] != [] {
      assert ix.sockets[priority][0] in SocketsAt(es, priority);
    }
  }

  /** The lookup at the highest priority. */
  lemma RotatesAtHighest(es: Entries, preferWebsocket: bool, strategy: Strategy, allowed: string -> bool, priority: int,
                         before: ViewCursors, after: ViewCursors, picked: Option<Auth>)
    requires IsPick(es, priority, preferWebsocket, strategy, allowed, picked)
    requires Rotates(es, priority, preferWebsocket, strategy, allowed, before, after, picked)
    ensures RotatesReady(es, preferWebsocket, strategy, allowed, before, after, picked)
  {
  }

  lemma FirstMovesNothing(es: Entries, priority: int, preferWebsocket: bool, allowed: string -> bool, cursors: ViewCursors,
                          picked: Option<Auth>)
    ensures Rotates(es, priority, preferWebsocket, FillFirst, allowed, cursors, cursors, picked)
  {
  }

  lemma RotatesBy(flat: seq<string>, es: Entries, priority: int, preferWebsocket: bool, allowed: string -> bool,
                  before: ViewCursors, after: ViewCursors, picked: Option<Auth>)
    requires Lists(flat, ViewAt(es, priority, preferWebsocket), Before)
    requires InTurn(flat, es, priority, preferWebsocket, allowed, before, after, picked)
    ensures Rotates(es, priority, preferWebsocket, RoundRobin, allowed, before, after, picked)
  {
  }

  /** With nothing ready at the priority a lookup moves nothing. */
  lemma NothingRotates(es: Entries, priority: int, preferWebsocket: bool, strategy: Strategy, allowed: string -> bool,
                       cursors: ViewCursors)
    requires ViewAt(es, priority, preferWebsocket) == {}
    ensures Rotates(es, priority, preferWebsocket, strategy, allowed, cursors, cursors, None)
  {
    NoneListed();
    if strategy == RoundRobin {
      assert InTurn([], es, priority, preferWebsocket, allowed, cursors, cursors, None);
    }
  }

  /** The view is sorted in one way only, so the turn is the one in any listing of it. */
  lemma RotatesInListing(flat: seq<string>, es: Entries, priority: int, preferWebsocket: bool, allowed: string -> bool,
                         before: ViewCursors, after: ViewCursors, picked: Option<Auth>)
    requires Lists(flat, ViewAt(es, priority, preferWebsocket), Before)
    requires Rotates(es, priority, preferWebsocket, RoundRobin, allowed, before, after, picked)
    ensures InTurn(flat, es, priority, preferWebsocket, allowed, before, after, picked)
  {
    var other :| Lists(other, ViewAt(es, priority, preferWebsocket), Before)
                 && InTurn(other, es, priority, preferWebsocket, allowed, before, after, picked);
    IdsUnique(flat, other, ViewAt(es, priority, preferWebsocket));
  }
}
