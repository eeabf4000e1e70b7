/**
 * The audit query handlers of audit/handlers.go: the query-string endpoint
 * with its `limit`/`page_size`/`page` defaults and offset arithmetic, the
 * JSON filter endpoint with its limit default, and the per-session incident
 * endpoint. Each one first records its own query as an audit event, so the
 * query that follows sees that event too.
 *
 * RFC 3339 parsing is not modelled: a time argument arrives absent,
 * malformed, or as the integer it denotes.
 */
module AuditHandlers {
  import opened Outcomes
  import opened Text
  import opened Audit
  import KeyOrder

  datatype TimeArg = Absent | Malformed | At(t: int)

  /** The bound a time argument sets; absent is Go's zero time, no bound. */
  function TimeValue(a: TimeArg): int {
    if a.At? then a.t else 0
  }

  /** The query string of `GET /api/admin/audit-logs`; absent parameters
      are empty strings. */
  datatype Query = Query(userId: string, action: string, resource: string, start: TimeArg, end: TimeArg,
                         limit: string, pageSize: string, page: string)

  /** The body of `POST /api/admin/audit-logs/filter` (audit/handlers.go:13-21). */
  datatype FilterRequest = FilterRequest(userId: string, action: string, resource: string,
                                         startTime: TimeArg, endTime: TimeArg, limit: int, page: int)

  datatype Reply =
    | Unauthorized
    | BadStartTime
    | BadEndTime
    | BadBody(err: string)
    | SessionRequired
    | QueryPage(logs: seq<AuditLog>, total: int, count: int, limit: int, page: int)
    | FilterPage(logs: seq<AuditLog>, count: int, filters: FilterRequest)
    | IncidentLogs(logs: seq<AuditLog>, count: int, sessionId: string)

  function StatusOf(r: Reply): int {
    match r
    case Unauthorized => 401
    case BadStartTime => 400
    case BadEndTime => 400
    case BadBody(_) => 400
    case SessionRequired => 400
    case _ => 200
  }

  // ------------------------------------------------------ query parameters

  /** The page size (audit/handlers.go:88-91, 113-118): `page_size` when
      present, else `limit`; a value that `Atoi` reads as positive is
      taken, anything else leaves the default 10. */
  function LimitFromQuery(limitQ: string, pageSizeQ: string): (limit: int)
    ensures 1 <= limit <= MaxInt64
    ensures var s := if pageSizeQ != "" then pageSizeQ else limitQ;
            (Atoi(s).Some? && Atoi(s).value > 0 ==> limit == Atoi(s).value)
            && (!(Atoi(s).Some? && Atoi(s).value > 0) ==> limit == 10)
  {
    var s := if pageSizeQ != "" then pageSizeQ else limitQ;
    var parsed := Atoi(s);
    if s != "" && parsed.Some? && parsed.value > 0 then parsed.value else 10
  }

  /** The page number (audit/handlers.go:119-124): a value that `Atoi`
      reads as positive, else 1. */
  function PageFromQuery(pageQ: string): (page: int)
    ensures 1 <= page <= MaxInt64
    ensures Atoi(pageQ).Some? && Atoi(pageQ).value > 0 ==> page == Atoi(pageQ).value
    ensures !(Atoi(pageQ).Some? && Atoi(pageQ).value > 0) ==> page == 1
  {
    var parsed := Atoi(pageQ);
    if pageQ != "" && parsed.Some? && parsed.value > 0 then parsed.value else 1
  }

  /** Positive numbers written in decimal are read back, and `page_size`
      wins over `limit` whatever `limit` says. */
  lemma QueryReadsBack(limit: int, page: int, otherLimit: string)
    requires 1 <= limit <= MaxInt64 && 1 <= page <= MaxInt64
    ensures LimitFromQuery(FormatInt(limit), "") == limit
    ensures LimitFromQuery(otherLimit, FormatInt(limit)) == limit
    ensures PageFromQuery(FormatInt(page)) == page
  {
    AtoiFormatInt(limit);
    AtoiFormatInt(page);
  }

  /** The offset as audit/handlers.go:125 computes it, in Go's 64-bit `int`. */
  function OffsetAsWritten(page: int, limit: int): int
    requires 1 <= page <= MaxInt64 && 1 <= limit <= MaxInt64
  {
    Wrap64((page - 1) * limit)
  }

  /** The offset meant: the records of the pages before this one. */
  function Offset(page: int, limit: int): (offset: int)
    requires page >= 1 && limit >= 1
    ensures offset >= 0
    ensures page == 1 ==> offset == 0
  {
    (page - 1) * limit
  }

  /** Each page starts where the previous one ends, so consecutive pages
      are consecutive runs of the selection. */
  lemma PagesFollow(ms: seq<AuditLog>, page: int, limit: int)
    requires page >= 1 && limit >= 1
    ensures Offset(page + 1, limit) == Offset(page, limit) + limit
    ensures Page(ms, Offset(page, limit), limit) + Page(ms, Offset(page + 1, limit), limit)
            == Page(ms, Offset(page, limit), 2 * limit)
  {
    var o := Offset(page, limit);
    assert Offset(page + 1, limit) == o + limit by {
      assert page * limit == (page - 1) * limit + limit;
    }
    PagesConcatenate(ms, o, limit);
  }

  /** While `page * limit` fits a 64-bit `int` the code computes the offset
      meant. */
  lemma OffsetAgrees(page: int, limit: int)
    requires 1 <= page && 1 <= limit && InInt64(page * limit)
    ensures OffsetAsWritten(page, limit) == Offset(page, limit)
  {
    assert 0 <= (page - 1) * limit <= page * limit by {
      assert page * limit == (page - 1) * limit + limit;
    }
  }

  /** `?page=2305843009213693953&limit=4`: the offset wraps to -2^63, which
      skips nothing, so the reply is the first page rather than an empty
      one. */
  lemma OffsetWrapsNegative(ms: seq<AuditLog>)
    ensures OffsetAsWritten(0x2000_0000_0000_0001, 4) == MinInt64
    ensures Page(ms, OffsetAsWritten(0x2000_0000_0000_0001, 4), 4) == Page(ms, 0, 4)
    ensures |ms| <= MaxInt64 ==> Page(ms, Offset(0x2000_0000_0000_0001, 4), 4) == []
  {
    OffsetWrapsToMin();
    assert Skip(MinInt64, |ms|) == 0 == Skip(0, |ms|);
    assert Offset(0x2000_0000_0000_0001, 4) == 0x8000_0000_0000_0000;
  }

  /** The query of that request reads back as page 2305843009213693953 and
      limit 4. */
  lemma WrapQueryReadsBack()
    ensures PageFromQuery(FormatInt(0x2000_0000_0000_0001)) == 0x2000_0000_0000_0001
    ensures LimitFromQuery(FormatInt(4), "") == 4
  {
    QueryReadsBack(4, 0x2000_0000_0000_0001, "");
  }

  lemma OffsetWrapsToMin()
    ensures OffsetAsWritten(0x2000_0000_0000_0001, 4) == MinInt64
  {
    assert Wrap64(0x2000_0000_0000_0000 * 4) == MinInt64;
  }

  /** `?page=4611686018427387905&limit=4`: the offset wraps to 0. */
  lemma OffsetWrapsToZero()
    ensures OffsetAsWritten(0x4000_0000_0000_0001, 4) == 0
  {
    assert Wrap64(0x4000_0000_0000_0000 * 4) == 0;
  }

  /** The offset of the filter endpoint (audit/handlers.go:251-254): only
      from page 2 on, in Go's 64-bit `int`. */
  function FilterOffsetAsWritten(page: int, limit: int): (offset: int)
    requires InInt64(page) && 1 <= limit <= MaxInt64
    ensures page <= 1 ==> offset == 0
    ensures page > 1 && InInt64(page * limit) ==> offset == Offset(page, limit)
  {
    if limit > 0 && page > 1 then
      OffsetAgreesLater(page, limit);
      OffsetAsWritten(page, limit)
    else 0
  }

  lemma OffsetAgreesLater(page: int, limit: int)
    requires 1 < page <= MaxInt64 && 1 <= limit <= MaxInt64
    ensures InInt64(page * limit) ==> OffsetAsWritten(page, limit) == Offset(page, limit)
  {
    if InInt64(page * limit) {
      OffsetAgrees(page, limit);
    }
  }

  /** A filter request's limit after the default (audit/handlers.go:242-244). */
  function NormalLimit(limit: int): (r: int)
    ensures r > 0
    ensures limit > 0 ==> r == limit
    ensures limit <= 0 ==> r == 100
  {
    if limit <= 0 then 100 else limit
  }

  /** Whatever its length, a listing has as many records as its multiset. */
  lemma SameCount(a: seq<AuditLog>, b: seq<AuditLog>)
    requires multiset(a) == multiset(b)
    ensures |a| == |b|
  {
    assert |multiset(a)| == |a| && |multiset(b)| == |b|;
  }

  // -------------------------------------------------------------- handlers

  /** The limit of `GetAuditLogsHandler` (audit/handlers.go:88-91, 113-118):
      `page_size` when given, else `limit`, read when positive, else 10. */
  method ReadLimit(limitQ: string, pageSizeQ: string) returns (limit: int)
    ensures limit == LimitFromQuery(limitQ, pageSizeQ)
  {
    var limitStr := limitQ;
    if pageSizeQ != "" {
      limitStr := pageSizeQ;
    }
    limit := 10;
    if limitStr != "" {
      var parsed := Atoi(limitStr);
      if parsed.Some? && parsed.value > 0 {
        limit := parsed.value;
      }
    }
  }

  /** The page of `GetAuditLogsHandler` (audit/handlers.go:92, 119-124). */
  method ReadPage(pageQ: string) returns (page: int)
    ensures page == PageFromQuery(pageQ)
  {
    page := 1;
    if pageQ != "" {
      var parsed := Atoi(pageQ);
      if parsed.Some? && parsed.value > 0 {
        page := parsed.value;
      }
    }
  }

  /**
   * `GetAuditLogsHandler` (audit/handlers.go:69-170). The caller must be
   * signed in; malformed times are refused; the query is recorded, then
   * `total` counts every match and the page is the selection at
   * `(page-1)*limit`, newest first.
   */
  method GetAuditLogsHandler(trail: AuditTrail, ctx: Context, q: Query, nanos: int, now: int)
    returns (reply: Reply)
    requires trail.Valid()
    modifies trail
    ensures trail.Valid()
    ensures ctx.username.None? ==> reply == Unauthorized && unchanged(trail)
    ensures ctx.username.Some? && q.start.Malformed? ==> reply == BadStartTime && unchanged(trail)
    ensures ctx.username.Some? && !q.start.Malformed? && q.end.Malformed? ==> reply == BadEndTime && unchanged(trail)
    ensures ctx.username.Some? && !q.start.Malformed? && !q.end.Malformed? ==>
              var log := NewLog(ctx, "query_audit_logs", "audit_logs", "", true, None, nanos, now);
              var f := Filter(q.userId, q.action, q.resource, TimeValue(q.start), TimeValue(q.end));
              var limit, page := LimitFromQuery(q.limit, q.pageSize), PageFromQuery(q.page);
              && trail.entries == old(trail.entries)[LogKey(log.id) := log]
              && trail.keys == KeyOrder.Insert(old(trail.keys), LogKey(log.id))
              && reply.QueryPage? && reply.limit == limit && reply.page == page
              && reply.total == |Matching(trail.Stored(), f)|
              && multiset(reply.logs) == multiset(Selected(trail.Stored(), f, OffsetAsWritten(page, limit), limit))
              && NewestFirst(reply.logs) && reply.count == |reply.logs|
  {
    if ctx.username.None? {
      return Unauthorized;
    }
    if q.start.Malformed? {
      return BadStartTime;
    }
    if q.end.Malformed? {
      return BadEndTime;
    }
    var limit := ReadLimit(q.limit, q.pageSize);
    var page := ReadPage(q.page);
    var offset := Wrap64((page - 1) * limit);
    assert offset == OffsetAsWritten(page, limit);
    trail.LogEvent(ctx, "query_audit_logs", "audit_logs", "", true, None, nanos, now);
    var f := Filter(q.userId, q.action, q.resource, TimeValue(q.start), TimeValue(q.end));
    var allLogs := trail.GetAuditLogs(f, 0, 0);
    SelectedSpec(trail.Stored(), f, 0, 0);
    SameCount(allLogs, Matching(trail.Stored(), f));
    var logs := trail.GetAuditLogs(f, offset, limit);
    reply := QueryPage(logs, |allLogs|, |logs|, limit, page);
  }

  /**
   * `PostAuditLogsFilterHandler` (audit/handlers.go:208-267). `body` is
   * the decoded JSON body or the decoder's error; the request's limit
   * defaults to 100, and the reply echoes the request with that limit.
   */
  method PostAuditLogsFilterHandler(trail: AuditTrail, ctx: Context, body: Result<FilterRequest>, nanos: int, now: int)
    returns (reply: Reply)
    requires trail.Valid()
    requires body.Ok? ==> InInt64(body.value.limit) && InInt64(body.value.page)
    modifies trail
    ensures trail.Valid()
    ensures ctx.username.None? ==> reply == Unauthorized && unchanged(trail)
    ensures ctx.username.Some? && body.Err? ==> reply == BadBody(body.msg) && unchanged(trail)
    ensures ctx.username.Some? && body.Ok? && body.value.startTime.Malformed? ==>
              reply == BadStartTime && unchanged(trail)
    ensures ctx.username.Some? && body.Ok? && !body.value.startTime.Malformed? && body.value.endTime.Malformed? ==>
              reply == BadEndTime && unchanged(trail)
    ensures ctx.username.Some? && body.Ok? && !body.value.startTime.Malformed? && !body.value.endTime.Malformed? ==>
              var req := body.value.(limit := NormalLimit(body.value.limit));
              var log := NewLog(ctx, "filter_audit_logs", "audit_logs", "", true, None, nanos, now);
              var f := Filter(req.userId, req.action, req.resource, TimeValue(req.startTime), TimeValue(req.endTime));
              && trail.entries == old(trail.entries)[LogKey(log.id) := log]
              && trail.keys == KeyOrder.Insert(old(trail.keys), LogKey(log.id))
              && reply.FilterPage? && reply.filters == req
              && multiset(reply.logs)
                   == multiset(Selected(trail.Stored(), f, FilterOffsetAsWritten(req.page, req.limit), req.limit))
              && NewestFirst(reply.logs) && reply.count == |reply.logs|
  {
    if ctx.username.None? {
      return Unauthorized;
    }
    if body.Err? {
      return BadBody(body.msg);
    }
    var filterRequest := body.value;
    if filterRequest.startTime.Malformed? {
      return BadStartTime;
    }
    if filterRequest.endTime.Malformed? {
      return BadEndTime;
    }
    if filterRequest.limit <= 0 {
      filterRequest := filterRequest.(limit := 100);
    }
    trail.LogEvent(ctx, "filter_audit_logs", "audit_logs", "", true, None, nanos, now);
    var offset := FilterOffset(filterRequest.page, filterRequest.limit);
    assert filterRequest == body.value.(limit := NormalLimit(body.value.limit));
    var f := Filter(filterRequest.userId, filterRequest.action, filterRequest.resource,
                    TimeValue(filterRequest.startTime), TimeValue(filterRequest.endTime));
    var logs := trail.GetAuditLogs(f, offset, filterRequest.limit);
    reply := FilterPage(logs, |logs|, filterRequest);
  }

  /** The filter handler's offset (audit/handlers.go:251-254): zero for the
      first page, otherwise `(page - 1) * limit` in 64-bit arithmetic. */
  method FilterOffset(page: int, limit: int) returns (offset: int)
    requires InInt64(page) && 1 <= limit <= MaxInt64
    ensures offset == FilterOffsetAsWritten(page, limit)
  {
    offset := 0;
    if limit > 0 && page > 1 {
      offset := Wrap64((page - 1) * limit);
    }
  }

  /**
   * `GetAuditLogsByIncidentHandler` (audit/handlers.go:173-205): a signed-in
   * caller and a non-empty session id; the query is recorded under that
   * session id as its resource id, then every record of the session is
   * returned in store order.
   */
  method GetAuditLogsByIncidentHandler(trail: AuditTrail, ctx: Context, sessionId: string, nanos: int, now: int)
    returns (reply: Reply)
    requires trail.Valid()
    modifies trail
    ensures trail.Valid()
    ensures ctx.username.None? ==> reply == Unauthorized && unchanged(trail)
    ensures ctx.username.Some? && sessionId == "" ==> reply == SessionRequired && unchanged(trail)
    ensures ctx.username.Some? && sessionId != "" ==>
              var log := NewLog(ctx, "query_audit_logs_by_incident", "audit_logs", sessionId, true, None, nanos, now);
              && trail.entries == old(trail.entries)[LogKey(log.id) := log]
              && trail.keys == KeyOrder.Insert(old(trail.keys), LogKey(log.id))
              && reply == IncidentLogs(InSession(trail.Stored(), sessionId), |InSession(trail.Stored(), sessionId)|, sessionId)
  {
    if ctx.username.None? {
      return Unauthorized;
    }
    if sessionId == "" {
      return SessionRequired;
    }
    trail.LogEvent(ctx, "query_audit_logs_by_incident", "audit_logs", sessionId, true, None, nanos, now);
    var logs := trail.GetAuditLogsByIncident(sessionId);
    reply := IncidentLogs(logs, |logs|, sessionId);
  }
}
