/**
 * The audit trail of audit/audit.go: every handler event becomes one
 * `AuditLog` stored under `audit:{id}`; queries walk those keys in key
 * order, keep the records that pass the filter, skip `offset` of them, stop
 * at `limit`, and finally sort what they kept newest first.
 *
 * Timestamps are integers; 0 stands for Go's zero `time.Time`, which the
 * filters treat as "no bound".
 */
module Audit {
  import opened Outcomes
  import opened Text
  import KeyOrder

  /** A value taken from the request context, as `interface{}`. */
  datatype Value = Nil | Str(s: string) | Int(n: int) | Bool(b: bool)

  /** `GetStringValue` (audit/audit.go:180-188): nil is empty, a string is
      itself, anything else is its `%v` formatting. */
  function GetStringValue(v: Value): (r: string)
    ensures v.Nil? ==> r == ""
    ensures v.Str? ==> r == v.s
  {
    match v
    case Nil => ""
    case Str(s) => s
    case Int(n) => FormatInt(n)
    case Bool(b) => FormatBool(b)
  }

  /** A formatted non-string value reads back as the value it came from. */
  lemma StringValueReadsBack(v: Value)
    ensures v.Int? && InInt64(v.n) ==> Atoi(GetStringValue(v)) == Some(v.n)
    ensures v.Bool? ==> (GetStringValue(v) == "true" <==> v.b)
  {
    if v.Int? && InInt64(v.n) {
      AtoiFormatInt(v.n);
    }
  }

  /** One stored event (audit/audit.go:14-28); the free-form details map is
      not modelled. */
  datatype AuditLog = AuditLog(
    id: string,
    timestamp: int,
    userId: string,
    username: string,
    action: string,
    resource: string,
    resourceId: string,
    clientIp: string,
    userAgent: string,
    success: bool,
    error: string,
    sessionId: string)

  /** What `LogEvent` reads from the request: the context keys `user_id`,
      `username` and `session_id` (absent ones are `None`), the client
      address and the `User-Agent` header. */
  datatype Context = Context(
    userId: Option<Value>,
    username: Option<Value>,
    sessionId: Option<Value>,
    clientIp: string,
    userAgent: string)

  /** `c.Get(key)` with the presence flag dropped. */
  function Lookup(o: Option<Value>): Value {
    if o.Some? then o.value else Nil
  }

  function LogId(nanos: int): string {
    "audit_" + FormatInt(nanos)
  }

  function LogKey(id: string): string {
    "audit:" + id
  }

  /** The record `LogEvent` builds (audit/audit.go:43-67), with the clock
      read twice: `nanos` for the id, `now` for the timestamp. */
  function NewLog(ctx: Context, action: string, resource: string, resourceId: string, success: bool,
                  err: Option<string>, nanos: int, now: int): (log: AuditLog)
    ensures err.Some? ==> log.error == err.value
    ensures err.None? ==> log.error == ""
    ensures log.id == LogId(nanos) && log.timestamp == now
    ensures log.userId == GetStringValue(Lookup(ctx.userId))
    ensures log.username == GetStringValue(Lookup(ctx.username))
    ensures log.sessionId == GetStringValue(Lookup(ctx.sessionId))
    ensures log.action == action && log.resource == resource && log.resourceId == resourceId
    ensures log.clientIp == ctx.clientIp && log.userAgent == ctx.userAgent
    ensures log.success == success
  {
    var errorMsg := if err.Some? then err.value else "";
    AuditLog(LogId(nanos), now, GetStringValue(Lookup(ctx.userId)), GetStringValue(Lookup(ctx.username)),
             action, resource, resourceId, ctx.clientIp, ctx.userAgent, success, errorMsg,
             GetStringValue(Lookup(ctx.sessionId)))
  }

  // ------------------------------------------------------------ filtering

  /** The filter of `GetAuditLogs`: an empty string or a zero time means
      "any". */
  datatype Filter = Filter(userId: string, action: string, resource: string, start: int, end: int)

  predicate Matches(log: AuditLog, f: Filter) {
    (f.userId == "" || log.userId == f.userId)
    && (f.action == "" || log.action == f.action)
    && (f.resource == "" || log.resource == f.resource)
    && (f.start == 0 || log.timestamp >= f.start)
    && (f.end == 0 || log.timestamp <= f.end)
  }

  /** The records that pass the filter, in store order. */
  function Matching(logs: seq<AuditLog>, f: Filter): (r: seq<AuditLog>)
    ensures |r| <= |logs|
  {
    if |logs| == 0 then []
    else
      var init := Matching(logs[..|logs| - 1], f);
      var last := logs[|logs| - 1];
      if Matches(last, f) then init + [last] else init
  }

  /** The matching records are exactly the stored records that pass the
      filter. */
  lemma {:induction false} MatchingExact(logs: seq<AuditLog>, f: Filter)
    ensures forall l :: l in Matching(logs, f) <==> l in logs && Matches(l, f)
    decreases |logs|
  {
    if |logs| > 0 {
      var last := logs[|logs| - 1];
      MatchingExact(logs[..|logs| - 1], f);
      assert logs == logs[..|logs| - 1] + [last];
    }
  }

  lemma {:induction false} MatchingAppend(a: seq<AuditLog>, b: seq<AuditLog>, f: Filter)
    ensures Matching(a + b, f) == Matching(a, f) + Matching(b, f)
    decreases |b|
  {
    if |b| > 0 {
      var b' := b[..|b| - 1];
      assert (a + b)[..|a + b| - 1] == a + b';
      MatchingAppend(a, b', f);
    } else {
      assert a + b == a;
    }
  }

  /** How many records an offset skips among `n`: none for an offset of
      zero or less, at most all of them. */
  function Skip(offset: int, n: nat): (s: nat)
    ensures s <= n
  {
    if offset <= 0 then 0 else if offset > n then n else offset
  }

  /** The records an offset and a limit select, in order: the ones after
      the skipped ones, at most `limit` of them when `limit` is positive. */
  function Page(ms: seq<AuditLog>, offset: int, limit: int): (r: seq<AuditLog>)
    ensures Skip(offset, |ms|) + |r| <= |ms|
    ensures r == ms[Skip(offset, |ms|)..Skip(offset, |ms|) + |r|]
    ensures limit > 0 ==> |r| <= limit
    ensures limit > 0 && |r| < limit ==> Skip(offset, |ms|) + |r| == |ms|
    ensures limit <= 0 ==> Skip(offset, |ms|) + |r| == |ms|
  {
    var rest := ms[Skip(offset, |ms|)..];
    if limit > 0 && |rest| > limit then rest[..limit] else rest
  }

  /** What a query returns before sorting. */
  function Selected(logs: seq<AuditLog>, f: Filter, offset: int, limit: int): seq<AuditLog> {
    Page(Matching(logs, f), offset, limit)
  }

  /** Every selected record passes the filter; a positive limit bounds the
      count; with no offset and no limit the selection is every match. */
  lemma SelectedSpec(logs: seq<AuditLog>, f: Filter, offset: int, limit: int)
    ensures forall l :: l in Selected(logs, f, offset, limit) ==> l in logs && Matches(l, f)
    ensures limit > 0 ==> |Selected(logs, f, offset, limit)| <= limit
    ensures Selected(logs, f, 0, 0) == Matching(logs, f)
  {
    MatchingExact(logs, f);
    PageWithin(Matching(logs, f), offset, limit);
    assert Matching(logs, f)[0..] == Matching(logs, f);
  }

  /** A page holds only records of what it pages through. */
  lemma PageWithin(ms: seq<AuditLog>, offset: int, limit: int)
    ensures forall l :: l in Page(ms, offset, limit) ==> l in ms
  {
    var r := Page(ms, offset, limit);
    forall l | l in r ensures l in ms {
      var i :| 0 <= i < |r| && r[i] == l;
      assert l == ms[Skip(offset, |ms|) + i];
    }
  }

  /** Consecutive pages of one size follow each other: two pages from
      `offset` are the double page from `offset`. */
  lemma PagesConcatenate(ms: seq<AuditLog>, offset: int, limit: int)
    requires offset >= 0 && limit > 0
    ensures Page(ms, offset, limit) + Page(ms, offset + limit, limit) == Page(ms, offset, 2 * limit)
  {
    var a, b, c := Page(ms, offset, limit), Page(ms, offset + limit, limit), Page(ms, offset, 2 * limit);
    var s := Skip(offset, |ms|);
    assert |a| + |b| == |c|;
    forall i | 0 <= i < |c| ensures (a + b)[i] == c[i] {
      if i < |a| {
        assert (a + b)[i] == ms[s + i];
      } else {
        assert (a + b)[i] == ms[Skip(offset + limit, |ms|) + (i - |a|)];
      }
    }
  }

  /** Once a page is full, further records do not change it. */
  lemma PageFull(ms: seq<AuditLog>, more: seq<AuditLog>, offset: int, limit: int)
    requires limit > 0 && |Page(ms, offset, limit)| >= limit
    ensures Page(ms + more, offset, limit) == Page(ms, offset, limit)
  {
    var r, r' := Page(ms, offset, limit), Page(ms + more, offset, limit);
    assert Skip(offset, |ms + more|) == Skip(offset, |ms|);
    forall i | 0 <= i < |r| ensures r'[i] == r[i] {
      assert r'[i] == (ms + more)[Skip(offset, |ms|) + i];
    }
  }

  /** One more record matched: the page grows by it, or stays as it was
      when the record is skipped or the page is full. */
  lemma PageStep(ms: seq<AuditLog>, l: AuditLog, offset: int, limit: int)
    ensures var p := Page(ms, offset, limit);
            Page(ms + [l], offset, limit)
              == if Skip(offset, |ms|) < offset || (limit > 0 && |p| >= limit) then p else p + [l]
  {
    var p, p' := Page(ms, offset, limit), Page(ms + [l], offset, limit);
    if limit > 0 && |p| >= limit && Skip(offset, |ms|) >= offset {
      PageFull(ms, [l], offset, limit);
    } else if Skip(offset, |ms|) >= offset {
      assert Skip(offset, |ms| + 1) == Skip(offset, |ms|);
      assert p' == p + [l];
    }
  }

  /** One more stored record is matched exactly when it passes the filter. */
  lemma MatchingStep(prefix: seq<AuditLog>, log: AuditLog, f: Filter)
    ensures Matching(prefix + [log], f) == Matching(prefix, f) + (if Matches(log, f) then [log] else [])
  {
    MatchingAppend(prefix, [log], f);
    assert [log][..0] == [];
  }

  /** The skip count and the kept records after the callback of
      `GetAuditLogs` has seen one more record (audit/audit.go:98-125). */
  function Visited(log: AuditLog, f: Filter, offset: int, limit: int, skipped: nat, kept: seq<AuditLog>): (nat, seq<AuditLog>) {
    if !Matches(log, f) then (skipped, kept)
    else if skipped < offset then (skipped + 1, kept)
    else if limit > 0 && |kept| >= limit then (skipped, kept)
    else (skipped, kept + [log])
  }

  /** The callback keeps the counters in step with `Matching` and `Page`: after
      record `i` the skip count and the kept records are those of the
      prefix up to and including it. */
  lemma VisitedFollows(stored: seq<AuditLog>, i: nat, f: Filter, offset: int, limit: int, skipped: nat, kept: seq<AuditLog>)
    requires i < |stored|
    requires skipped == Skip(offset, |Matching(stored[..i], f)|)
    requires kept == Page(Matching(stored[..i], f), offset, limit)
    ensures Visited(stored[i], f, offset, limit, skipped, kept).0 == Skip(offset, |Matching(stored[..i + 1], f)|)
    ensures Visited(stored[i], f, offset, limit, skipped, kept).1 == Page(Matching(stored[..i + 1], f), offset, limit)
  {
    var ms, log := Matching(stored[..i], f), stored[i];
    assert stored[..i + 1] == stored[..i] + [log];
    MatchingStep(stored[..i], log, f);
    if Matches(log, f) {
      PageStep(ms, log, offset, limit);
      assert |ms + [log]| == |ms| + 1;
    }
  }

  /** Stopping early, once the page is full, selects what reading on
      would have. */
  lemma QueryDone(stored: seq<AuditLog>, i: int, f: Filter, offset: int, limit: int)
    requires 0 <= i <= |stored|
    requires i < |stored| ==> limit > 0 && |Page(Matching(stored[..i], f), offset, limit)| >= limit
    ensures Page(Matching(stored[..i], f), offset, limit) == Selected(stored, f, offset, limit)
  {
    assert stored == stored[..i] + stored[i..];
    MatchingAppend(stored[..i], stored[i..], f);
    if i < |stored| {
      PageFull(Matching(stored[..i], f), Matching(stored[i..], f), offset, limit);
    }
  }

  /** The iteration of `GetAuditLogs` over the stored records in key order
      (audit/audit.go:88-134): the `skipped` and `count` counters, stopping
      once `limit` records are kept. */
  method Select(stored: seq<AuditLog>, f: Filter, offset: int, limit: int) returns (kept: seq<AuditLog>)
    ensures kept == Selected(stored, f, offset, limit)
  {
    kept := [];
    var count, skipped := 0, 0;
    var i := 0;
    while i < |stored|
      invariant 0 <= i <= |stored|
      invariant skipped == Skip(offset, |Matching(stored[..i], f)|)
      invariant kept == Page(Matching(stored[..i], f), offset, limit)
      invariant count == |kept|
    {
      VisitedFollows(stored, i, f, offset, limit, skipped, kept);
      skipped, count, kept := Visit(stored[i], f, offset, limit, skipped, count, kept);
      i := i + 1;
      assert kept == Page(Matching(stored[..i], f), offset, limit);
      if limit > 0 && count >= limit {
        QueryDone(stored, i, f, offset, limit);
        return;
      }
    }
    QueryDone(stored, i, f, offset, limit);
  }

  /** The callback `GetAuditLogs` runs on each record (audit/audit.go:91-125):
      drop it unless it passes every filter, count it as skipped while
      fewer than `offset` are, drop it once the page is full, else keep it. */
  method Visit(log: AuditLog, f: Filter, offset: int, limit: int, skipped0: nat, count0: nat, kept0: seq<AuditLog>)
    returns (skipped: nat, count: nat, kept: seq<AuditLog>)
    requires count0 == |kept0|
    ensures skipped == Visited(log, f, offset, limit, skipped0, kept0).0
    ensures kept == Visited(log, f, offset, limit, skipped0, kept0).1
    ensures count == |kept|
  {
    skipped, count, kept := skipped0, count0, kept0;
    if f.userId != "" && log.userId != f.userId {
      return;
    }
    if f.action != "" && log.action != f.action {
      return;
    }
    if f.resource != "" && log.resource != f.resource {
      return;
    }
    if f.start != 0 && log.timestamp < f.start {
      return;
    }
    if f.end != 0 && log.timestamp > f.end {
      return;
    }
    if skipped < offset {
      skipped := skipped + 1;
      return;
    }
    if limit > 0 && count >= limit {
      return;
    }
    kept := kept + [log];
    count := count + 1;
  }

  /** Newest first: the order `sort.Slice` leaves with `After` as its
      comparison. */
  predicate NewestFirst(logs: seq<AuditLog>) {
    forall i, j :: 0 <= i < j < |logs| ==> logs[i].timestamp >= logs[j].timestamp
  }

  /** The records whose session is `sessionId`, in store order. */
  function InSession(logs: seq<AuditLog>, sessionId: string): (r: seq<AuditLog>)
    ensures |r| <= |logs|
    ensures forall l :: l in r <==> l in logs && l.sessionId == sessionId
  {
    if |logs| == 0 then []
    else
      var init := InSession(logs[..|logs| - 1], sessionId);
      var last := logs[|logs| - 1];
      assert logs == logs[..|logs| - 1] + [last];
      if last.sessionId == sessionId then init + [last] else init
  }

  /** The records found under `ks`, in that order. */
  function InKeyOrder(entries: map<string, AuditLog>, ks: seq<string>): (r: seq<AuditLog>)
    requires forall k :: k in ks ==> k in entries
    ensures |r| == |ks|
    ensures forall i :: 0 <= i < |ks| ==> r[i] == entries[ks[i]]
  {
    if |ks| == 0 then [] else InKeyOrder(entries, ks[..|ks| - 1]) + [entries[ks[|ks| - 1]]]
  }

  /** `sort.Slice(logs, After)`: a rearrangement of `logs` newest first (the
      library does not promise an order among equal timestamps, so neither
      does this contract). */
  method SortNewestFirst(logs: seq<AuditLog>) returns (sorted: seq<AuditLog>)
    ensures multiset(sorted) == multiset(logs)
    ensures NewestFirst(sorted)
  {
    sorted := [];
    for i := 0 to |logs|
      invariant multiset(sorted) == multiset(logs[..i])
      invariant NewestFirst(sorted)
    {
      var x := logs[i];
      var p := InsertionPoint(sorted, x);
      InsertKeepsOrder(sorted, p, x);
      InsertKeepsRecords(sorted, p, x);
      sorted := sorted[..p] + [x] + sorted[p..];
      assert logs[..i + 1] == logs[..i] + [x];
    }
    assert logs[..|logs|] == logs;
  }

  /** The place of `x` in a newest-first sequence: after every record at
      least as new. */
  method InsertionPoint(sorted: seq<AuditLog>, x: AuditLog) returns (p: int)
    requires NewestFirst(sorted)
    ensures 0 <= p <= |sorted|
    ensures forall q :: 0 <= q < p ==> sorted[q].timestamp >= x.timestamp
    ensures p < |sorted| ==> sorted[p].timestamp < x.timestamp
  {
    p := 0;
    while p < |sorted| && sorted[p].timestamp >= x.timestamp
      invariant 0 <= p <= |sorted|
      invariant forall q :: 0 <= q < p ==> sorted[q].timestamp >= x.timestamp
    {
      p := p + 1;
    }
  }

  lemma InsertKeepsRecords(s: seq<AuditLog>, p: int, x: AuditLog)
    requires 0 <= p <= |s|
    ensures multiset(s[..p] + [x] + s[p..]) == multiset(s) + multiset{x}
  {
    assert s == s[..p] + s[p..];
  }

  lemma InsertKeepsOrder(s: seq<AuditLog>, p: int, x: AuditLog)
    requires NewestFirst(s) && 0 <= p <= |s|
    requires forall q :: 0 <= q < p ==> s[q].timestamp >= x.timestamp
    requires p < |s| ==> s[p].timestamp < x.timestamp
    ensures NewestFirst(s[..p] + [x] + s[p..])
  {
    var r := s[..p] + [x] + s[p..];
    forall i, j | 0 <= i < j < |r| ensures r[i].timestamp >= r[j].timestamp {
      if j < p || i > p {
      } else if i == p {
        assert r[j] == s[j - 1];
      } else if j == p {
        assert r[i] == s[i];
      } else {
        assert r[i] == s[i] && r[j] == s[j - 1];
      }
    }
  }

  // ------------------------------------------------------------ the store

  /** The `audit:` part of the key-value store. */
  class AuditTrail {
    var keys: seq<string>
    var entries: map<string, AuditLog>

    ghost predicate Valid()
      reads this
    {
      KeyOrder.Sorted(keys)
      && (forall k :: k in keys ==> k in entries)
      && (forall k :: k in entries ==> k in keys)
      && (forall k :: k in entries ==> k == LogKey(entries[k].id))
    }

    /** The stored records in iteration order. */
    function Stored(): seq<AuditLog>
      reads this
      requires Valid()
    {
      InKeyOrder(entries, keys)
    }

    constructor ()
      ensures Valid() && keys == [] && entries == map[]
    {
      keys := [];
      entries := map[];
    }

    /** `LogEvent` (audit/audit.go:43-75): the new record is written under
        its key, replacing a record with the same id. */
    method LogEvent(ctx: Context, action: string, resource: string, resourceId: string, success: bool,
                    err: Option<string>, nanos: int, now: int)
      requires Valid()
      modifies this
      ensures Valid()
      ensures var log := NewLog(ctx, action, resource, resourceId, success, err, nanos, now);
              entries == old(entries)[LogKey(log.id) := log]
              && keys == KeyOrder.Insert(old(keys), LogKey(log.id))
    {
      var errorMsg := "";
      if err.Some? {
        errorMsg := err.value;
      }
      var log := AuditLog(LogId(nanos), now, GetStringValue(Lookup(ctx.userId)), GetStringValue(Lookup(ctx.username)),
                          action, resource, resourceId, ctx.clientIp, ctx.userAgent, success, errorMsg,
                          GetStringValue(Lookup(ctx.sessionId)));
      var key := LogKey(log.id);
      keys := KeyOrder.Insert(keys, key);
      entries := entries[key := log];
    }

    /** `GetAuditLogs` (audit/audit.go:78-143): the offset and the limit
        apply in store order to the records that pass the filter, and only
        what they select is sorted newest first. */
    method GetAuditLogs(f: Filter, offset: int, limit: int) returns (logs: seq<AuditLog>)
      requires Valid()
      ensures multiset(logs) == multiset(Selected(Stored(), f, offset, limit))
      ensures NewestFirst(logs)
    {
      var kept := Select(Stored(), f, offset, limit);
      logs := SortNewestFirst(kept);
    }

    /** `GetAuditLogsByIncident` (audit/audit.go:146-177): every record of
        the session, in store order. */
    method GetAuditLogsByIncident(sessionId: string) returns (logs: seq<AuditLog>)
      requires Valid()
      ensures logs == InSession(Stored(), sessionId)
    {
      var stored := Stored();
      logs := [];
      for i := 0 to |keys|
        invariant logs == InSession(stored[..i], sessionId)
      {
        assert stored[..i + 1][..i] == stored[..i];
        var log := entries[keys[i]];
        if log.sessionId == sessionId {
          logs := logs + [log];
        }
      }
      assert stored[..|keys|] == stored;
    }
  }
}
