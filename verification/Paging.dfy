/** The `events` query: pages of the log, newest first, over a log that keeps growing. */
module Paging {
  import opened Basics
  import opened Consent
  import opened Database
  import opened Kernel
  import opened Stability

  /** An event as a query returns it, with its log index. */
  datatype Entry = Entry(index: nat, event: Event)

  /** The filters that stay the same from page to page. */
  datatype Filter = Filter(actor: Option<Id>, after: Option<int>)

  datatype Page = Page(entries: seq<Entry>, hasMore: bool, nextCursor: Option<nat>)

  predicate Selected(f: Filter, events: seq<Event>, i: nat)
    requires i < |events|
  {
    (f.actor.None? || events[i].actor == f.actor.value) && (f.after.None? || i > f.after.value)
  }

  /** The selected events below `before`, by descending log index. */
  function Newest(f: Filter, events: seq<Event>, before: nat): (r: seq<Entry>)
    requires before <= |events|
    decreases before
  {
    if before == 0 then []
    else
      var rest := Newest(f, events, before - 1);
      if Selected(f, events, before - 1) then [Entry(before - 1, events[before - 1])] + rest else rest
  }

  /** One past the newest log index that a query with this cursor may return. */
  function Top(events: seq<Event>, cursor: Option<int>): (n: nat)
    ensures n <= |events|
  {
    if cursor.None? || cursor.value >= |events| then |events| else if cursor.value < 0 then 0 else cursor.value
  }

  function ClampLimit(limit: Option<int>): (n: nat)
    ensures 1 <= n <= 500
  {
    if limit.None? then 20 else if limit.value < 1 then 1 else if limit.value > 500 then 500 else limit.value
  }

  /** `query`: `WHERE` the filters hold, `ORDER BY log_index DESC`, `LIMIT`. */
  function Query(f: Filter, events: seq<Event>, cursor: Option<int>, limit: nat): (r: seq<Entry>)
    ensures |r| <= limit
  {
    var all := Newest(f, events, Top(events, cursor));
    if |all| <= limit then all else all[..limit]
  }

  /** The `events` branch of `read_query`. */
  function ReadEvents(f: Filter, events: seq<Event>, cursor: Option<int>, limit: Option<int>): (p: Page) {
    var entries := Query(f, events, cursor, ClampLimit(limit));
    Page(entries, |entries| == ClampLimit(limit), if entries == [] then None else Some(entries[|entries| - 1].index))
  }

  // ----- what a query returns ------------------------------------------------------------

  /** A selected event below `before`. */
  predicate Listed(f: Filter, events: seq<Event>, before: nat, e: Entry) {
    e.index < before <= |events| && Selected(f, events, e.index) && e.event == events[e.index]
  }

  /** Newest first, each selected event below `before` at most once, and nothing else. */
  lemma {:induction false} NewestSound(f: Filter, events: seq<Event>, before: nat)
    requires before <= |events|
    ensures forall e | e in Newest(f, events, before) :: Listed(f, events, before, e)
    ensures forall j, k | 0 <= j < k < |Newest(f, events, before)| ::
              Newest(f, events, before)[j].index > Newest(f, events, before)[k].index
    decreases before
  {
    if before > 0 {
      var r, rest := Newest(f, events, before), Newest(f, events, before - 1);
      NewestSound(f, events, before - 1);
      if Selected(f, events, before - 1) {
        assert forall k | 0 < k < |r| :: r[k] == rest[k - 1] && Listed(f, events, before - 1, rest[k - 1]);
      } else {
        assert r == rest;
      }
    }
  }

  lemma {:induction false} NewestComplete(f: Filter, events: seq<Event>, before: nat, i: nat)
    requires i < before <= |events|
    ensures Selected(f, events, i) <==> Entry(i, events[i]) in Newest(f, events, before)
    decreases before
  {
    var rest, e := Newest(f, events, before - 1), Entry(i, events[i]);
    if i < before - 1 {
      NewestComplete(f, events, before - 1, i);
      assert e in Newest(f, events, before) <==> e in rest;
    } else {
      NewestSound(f, events, before - 1);
      assert e !in rest by {
        assert !Listed(f, events, before - 1, e);
      }
    }
  }

  /** Events appended later do not show below an older index. */
  lemma {:induction false} NewestStable(f: Filter, events: seq<Event>, later: seq<Event>, before: nat)
    requires before <= |events| && events <= later
    ensures Newest(f, later, before) == Newest(f, events, before)
    decreases before
  {
    if before > 0 {
      NewestStable(f, events, later, before - 1);
    }
  }

  /** Cutting the list at its k-th entry leaves what a query with that entry's index as cursor sees. */
  lemma {:induction false} NewestFrom(f: Filter, events: seq<Event>, before: nat, k: nat)
    requires before <= |events| && k < |Newest(f, events, before)|
    ensures Newest(f, events, before)[k].index < before
    ensures Newest(f, events, before)[k + 1..] == Newest(f, events, Newest(f, events, before)[k].index)
    decreases before
  {
    var rest := Newest(f, events, before - 1);
    if !Selected(f, events, before - 1) {
      NewestFrom(f, events, before - 1, k);
    } else if k == 0 {
      assert Newest(f, events, before)[1..] == rest;
    } else {
      NewestFrom(f, events, before - 1, k - 1);
      assert Newest(f, events, before)[k + 1..] == rest[k..];
    }
  }

  /** A page is followed by exactly what a query from its cursor sees. */
  lemma PageThenRest(f: Filter, events: seq<Event>, cursor: Option<int>, limit: Option<int>)
    ensures var p, all := ReadEvents(f, events, cursor, limit), Newest(f, events, Top(events, cursor));
            && (p.entries == [] ==> all == [] && !p.hasMore)
            && (p.entries != [] ==>
                  && p.nextCursor.Some? && p.nextCursor.value < Top(events, cursor)
                  && all == p.entries + Newest(f, events, p.nextCursor.value))
  {
    var p, all := ReadEvents(f, events, cursor, limit), Newest(f, events, Top(events, cursor));
    if p.entries != [] {
      var k := |p.entries| - 1;
      NewestFrom(f, events, Top(events, cursor), k);
      assert all == all[..k + 1] + all[k + 1..];
    }
  }

  /** `has_more = false` means that nothing older remains; `true` is wrong exactly when the last page is full. */
  lemma NoMoreMeansNothingOlder(f: Filter, events: seq<Event>, cursor: Option<int>, limit: Option<int>)
    ensures var p, all := ReadEvents(f, events, cursor, limit), Newest(f, events, Top(events, cursor));
            && (!p.hasMore ==> p.entries == all)
            && (p.hasMore && p.entries == all <==> |all| == ClampLimit(limit))
  {
  }

  /** An event of the log, older than the cursor, that the client asked for. */
  predicate Wanted(f: Filter, events: seq<Event>, cursor: Option<int>, e: Entry) {
    && e.index < |events| && e.event == events[e.index]
    && match f.actor {
         case None => true
         case Some(id) => e.event.actor == id
       }
    && match f.after {
         case None => true
         case Some(k) => e.index > k
       }
    && match cursor
       case None => true
       case Some(k) => e.index < k
  }

  /** The page size for a limit: 20 unless one is asked for, at least 1 and at most 500. */
  predicate PageSize(limit: Option<int>, size: nat) {
    match limit
    case None => size == 20
    case Some(n) =>
      1 <= size <= 500 && (1 <= n <= 500 ==> size == n) && (n < 1 ==> size == 1) && (n > 500 ==> size == 500)
  }

  lemma WantedIsListed(f: Filter, events: seq<Event>, cursor: Option<int>, e: Entry)
    ensures Wanted(f, events, cursor, e) <==> Listed(f, events, Top(events, cursor), e)
    ensures Listed(f, events, Top(events, cursor), e) <==> e in Newest(f, events, Top(events, cursor))
  {
    NewestSound(f, events, Top(events, cursor));
    if Listed(f, events, Top(events, cursor), e) {
      NewestComplete(f, events, Top(events, cursor), e.index);
    }
  }

  /**
   * What a page is: the newest of the wanted events, newest first, up to the page
   * size; it has more exactly if it is full, and its cursor is its oldest index.
   */
  lemma PageIsNewest(f: Filter, events: seq<Event>, cursor: Option<int>, limit: Option<int>)
    returns (size: nat)
    ensures PageSize(limit, size)
    ensures var p := ReadEvents(f, events, cursor, limit);
            && |p.entries| <= size && (p.hasMore <==> |p.entries| == size)
            && (forall e | e in p.entries :: Wanted(f, events, cursor, e))
            && (forall j, k | 0 <= j < k < |p.entries| :: p.entries[j].index > p.entries[k].index)
            && (forall e | Wanted(f, events, cursor, e) && e !in p.entries ::
                  p.hasMore && forall k | 0 <= k < |p.entries| :: e.index < p.entries[k].index)
            && p.nextCursor == if p.entries == [] then None else Some(p.entries[|p.entries| - 1].index)
  {
    hide Newest, Wanted, Listed;
    size := ClampLimit(limit);
    var p, all := ReadEvents(f, events, cursor, limit), Newest(f, events, Top(events, cursor));
    NewestSound(f, events, Top(events, cursor));
    forall e
      ensures Wanted(f, events, cursor, e) <==> e in all
    {
      WantedIsListed(f, events, cursor, e);
    }
    forall e | e in all && e !in p.entries
      ensures p.hasMore && forall k | 0 <= k < |p.entries| :: e.index < p.entries[k].index
    {
      var i :| 0 <= i < |all| && all[i] == e;
      assert forall k | 0 <= k < |p.entries| :: p.entries[k] == all[k] && p.entries[k] in p.entries;
    }
  }

  // ----- following the cursor ----------------------------------------------------------------

  /** The log at the time of each page, never shorter and never rewritten. */
  ghost predicate Growing(logAt: nat -> seq<Event>) {
    forall t, u | t <= u :: logAt(t) <= logAt(u)
  }

  /** What is left to visit from a cursor. */
  function Left(events: seq<Event>, cursor: Option<int>): (n: nat) {
    if cursor.None? then |events| else if cursor.value < 0 then 0 else cursor.value
  }

  /** The concatenated pages of a client that follows `next_cursor` until `has_more` is false. */
  function Walk(f: Filter, logAt: nat -> seq<Event>, limitAt: nat -> Option<int>, t: nat,
                cursor: Option<int>): (r: seq<Entry>)
    decreases Left(logAt(t), cursor)
  {
    var p := ReadEvents(f, logAt(t), cursor, limitAt(t));
    PageThenRest(f, logAt(t), cursor, limitAt(t));
    if !p.hasMore then p.entries
    else p.entries + Walk(f, logAt, limitAt, t + 1, Some(p.nextCursor.value))
  }

  lemma {:induction false} WalkFrom(f: Filter, logAt: nat -> seq<Event>, limitAt: nat -> Option<int>, t: nat,
                                    cursor: Option<int>)
    requires Growing(logAt)
    ensures Walk(f, logAt, limitAt, t, cursor) == Newest(f, logAt(t), Top(logAt(t), cursor))
    decreases Left(logAt(t), cursor)
  {
    hide Query, Newest;
    var p := ReadEvents(f, logAt(t), cursor, limitAt(t));
    PageThenRest(f, logAt(t), cursor, limitAt(t));
    NoMoreMeansNothingOlder(f, logAt(t), cursor, limitAt(t));
    if p.hasMore {
      var next := p.nextCursor.value;
      WalkFrom(f, logAt, limitAt, t + 1, Some(next));
      NewestStable(f, logAt(t), logAt(t + 1), next);
    }
  }

  /**
   * Paging is complete: the pages together are the selected events of the log as
   * it stood at the first page, newest first, each once, whatever is appended
   * between pages and whatever page sizes are asked for.
   */
  lemma PagingIsComplete(f: Filter, logAt: nat -> seq<Event>, limitAt: nat -> Option<int>)
    requires Growing(logAt)
    ensures Walk(f, logAt, limitAt, 0, None) == Newest(f, logAt(0), |logAt(0)|)
  {
    WalkFrom(f, logAt, limitAt, 0, None);
  }

  // ----- over a running kernel ------------------------------------------------------------

  /** The state of the kernel when the client asks for page `t`. */
  function StateAt(c: Config, s: State, between: nat -> seq<Label>, t: nat): (r: State) {
    if t == 0 then s else Run(c, StateAt(c, s, between, t - 1), between(t - 1))
  }

  lemma {:induction false} LogsGrow(c: Config, s: State, between: nat -> seq<Label>, t: nat, u: nat)
    requires t <= u
    ensures Grows(StateAt(c, s, between, t).db, StateAt(c, s, between, u).db)
    decreases u
  {
    hide Run, Grows;
    if t == u {
      GrowsReflexive(StateAt(c, s, between, t).db);
    } else {
      LogsGrow(c, s, between, t, u - 1);
      var mid := StateAt(c, s, between, u - 1);
      RunGrows(c, mid, between(u - 1));
      GrowsTransitive(StateAt(c, s, between, t).db, mid.db, StateAt(c, s, between, u).db);
    }
  }

  function LogAt(c: Config, s: State, between: nat -> seq<Label>): (logAt: nat -> seq<Event>) {
    (t: nat) => StateAt(c, s, between, t).db.events
  }

  /** Paging a running kernel misses and repeats nothing, whatever runs between the pages. */
  lemma PagingARunningKernel(c: Config, s: State, between: nat -> seq<Label>, f: Filter, limitAt: nat -> Option<int>)
    ensures Walk(f, LogAt(c, s, between), limitAt, 0, None) == Newest(f, s.db.events, |s.db.events|)
  {
    hide Run, Walk, Newest, StateAt, Growing;
    LogsAreGrowing(c, s, between);
    PagingIsComplete(f, LogAt(c, s, between), limitAt);
    FirstState(c, s, between);
  }

  lemma FirstState(c: Config, s: State, between: nat -> seq<Label>)
    ensures StateAt(c, s, between, 0) == s
  {
  }

  lemma LogsAreGrowing(c: Config, s: State, between: nat -> seq<Label>)
    ensures Growing(LogAt(c, s, between))
  {
    hide Run, StateAt;
    var logAt := LogAt(c, s, between);
    forall t: nat, u: nat | t <= u
      ensures logAt(t) <= logAt(u)
    {
      LogsGrow(c, s, between, t, u);
    }
  }
}
