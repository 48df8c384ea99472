/**
 * The paginated accumulator behind the database audit view: it keeps the
 * allow-listed events received so far, the cursor of the next page and a
 * fetch status, and updates them as pages arrive from the audit service.
 */
module DatabaseAuditEvents {
  import opened Wrappers
  import opened Audit
  import EventHelpers

  /** The database-related event codes the view keeps. */
  const DatabaseEventCodes: seq<EventCode> := [
    "DATABASE_SESSION_QUERY", "DATABASE_SESSION_QUERY_FAILURE",
    "DATABASE_SESSION_STARTED", "DATABASE_SESSION_STARTED_FAILURE",
    "DATABASE_SESSION_ENDED",
    "POSTGRES_PARSE", "POSTGRES_BIND", "POSTGRES_EXECUTE", "POSTGRES_CLOSE",
    "POSTGRES_FUNCTION_CALL",
    "MYSQL_STATEMENT_PREPARE", "MYSQL_STATEMENT_EXECUTE", "MYSQL_STATEMENT_SEND_LONG_DATA",
    "MYSQL_STATEMENT_CLOSE", "MYSQL_STATEMENT_RESET", "MYSQL_STATEMENT_FETCH",
    "MYSQL_STATEMENT_BULK_EXECUTE", "MYSQL_INIT_DB", "MYSQL_CREATE_DB", "MYSQL_DROP_DB",
    "MYSQL_SHUT_DOWN", "MYSQL_PROCESS_KILL", "MYSQL_DEBUG", "MYSQL_REFRESH",
    "SQLSERVER_RPC_REQUEST",
    "CASSANDRA_BATCH_EVENT", "CASSANDRA_PREPARE_EVENT", "CASSANDRA_EXECUTE_EVENT",
    "CASSANDRA_REGISTER_EVENT",
    "ELASTICSEARCH_REQUEST", "ELASTICSEARCH_REQUEST_FAILURE",
    "OPENSEARCH_REQUEST", "OPENSEARCH_REQUEST_FAILURE",
    "DYNAMODB_REQUEST", "DYNAMODB_REQUEST_FAILURE",
    "SPANNER_RPC", "SPANNER_RPC_DENIED"
  ]

  /** The event's code is in the allow-list `codes`. */
  predicate HasCodeIn(codes: seq<EventCode>, e: Event)
  {
    e.code in codes
  }

  predicate IsDatabaseEvent(e: Event)
  {
    HasCodeIn(DatabaseEventCodes, e)
  }

  /** Keeps the events whose code is in `codes`, in their order. */
  function FilterByCodes(codes: seq<EventCode>, s: seq<Event>): (kept: seq<Event>)
  {
    if s == [] then []
    else (if HasCodeIn(codes, s[0]) then [s[0]] else []) + FilterByCodes(codes, s[1..])
  }

  /** The allow-list filter applied to every page. */
  function FilterDatabaseEvents(s: seq<Event>): (kept: seq<Event>)
  {
    FilterByCodes(DatabaseEventCodes, s)
  }

  /**
   * The filter keeps exactly the allow-listed events: every kept event is one,
   * and an event is kept exactly when it occurs in the input and is one. It
   * never lengthens the list.
   */
  lemma {:induction false} FilterKeepsExactlyAllowed(codes: seq<EventCode>, s: seq<Event>)
    ensures |FilterByCodes(codes, s)| <= |s|
    ensures forall i :: 0 <= i < |FilterByCodes(codes, s)| ==> HasCodeIn(codes, FilterByCodes(codes, s)[i])
    ensures forall e :: e in FilterByCodes(codes, s) <==> e in s && HasCodeIn(codes, e)
  {
    if s != [] {
      FilterKeepsExactlyAllowed(codes, s[1..]);
    }
  }

  /**
   * The filter keeps every allow-listed event as often as the input holds it,
   * and drops every other one.
   */
  lemma {:induction false} FilterKeepsMultiplicity(codes: seq<EventCode>, s: seq<Event>)
    ensures forall e :: multiset(FilterByCodes(codes, s))[e] == if HasCodeIn(codes, e) then multiset(s)[e] else 0
  {
    if s != [] {
      FilterKeepsMultiplicity(codes, s[1..]);
      assert s == [s[0]] + s[1..];
    }
  }

  /** Filtering a concatenation filters each part: pages never affect each other. */
  lemma {:induction false} FilterAppend(codes: seq<EventCode>, a: seq<Event>, b: seq<Event>)
    ensures FilterByCodes(codes, a + b) == FilterByCodes(codes, a) + FilterByCodes(codes, b)
  {
    if a == [] {
      assert a + b == b;
    } else {
      var head := if HasCodeIn(codes, a[0]) then [a[0]] else [];
      assert (a + b)[0] == a[0];
      assert (a + b)[1..] == a[1..] + b;
      calc {
        FilterByCodes(codes, a + b);
        head + FilterByCodes(codes, a[1..] + b);
        { FilterAppend(codes, a[1..], b); }
        head + (FilterByCodes(codes, a[1..]) + FilterByCodes(codes, b));
        (head + FilterByCodes(codes, a[1..])) + FilterByCodes(codes, b);
        FilterByCodes(codes, a) + FilterByCodes(codes, b);
      }
    }
  }

  /** A list of allow-listed events passes the filter unchanged. */
  lemma {:induction false} FilterKeepsAllowed(codes: seq<EventCode>, s: seq<Event>)
    requires forall i :: 0 <= i < |s| ==> HasCodeIn(codes, s[i])
    ensures FilterByCodes(codes, s) == s
  {
    if s != [] {
      FilterKeepsAllowed(codes, s[1..]);
    }
  }

  /** The filter is idempotent. */
  lemma FilterIdempotent(codes: seq<EventCode>, s: seq<Event>)
    ensures FilterByCodes(codes, FilterByCodes(codes, s)) == FilterByCodes(codes, s)
  {
    FilterKeepsExactlyAllowed(codes, s);
    FilterKeepsAllowed(codes, FilterByCodes(codes, s));
  }

  /**
   * Re-filtering the accumulated list after appending a page keeps the list
   * as a prefix and adds the page's allow-listed events, and equals filtering
   * everything received.
   */
  lemma RefilterAfterAppend(codes: seq<EventCode>, received: seq<Event>, page: seq<Event>)
    ensures var kept := FilterByCodes(codes, received);
      && FilterByCodes(codes, kept + page) == kept + FilterByCodes(codes, page)
      && FilterByCodes(codes, received + page) == kept + FilterByCodes(codes, page)
  {
    var kept := FilterByCodes(codes, received);
    FilterAppend(codes, kept, page);
    FilterAppend(codes, received, page);
    FilterIdempotent(codes, received);
  }

  /**
   * `fetchStatus` after a page arrives: "" while the returned cursor promises
   * more pages, "disabled" once it is empty.
   */
  function StatusAfter(startKey: string): (status: string)
    ensures status == "disabled" <==> startKey == ""
    ensures status == "" <==> startKey != ""
  {
    if startKey != "" then "" else "disabled"
  }

  /** One page from the audit service: its events and the cursor of the next page. */
  datatype Page = Page(events: seq<Event>, startKey: string)

  /** The audit service's answer: a page, or the message of the rejection. */
  type Response = Result<Page, string>

  /** The status of the initial load, as the view's attempt flag records it. */
  datatype Attempt = Processing | Succeeded | Failed(statusText: string)

  /** The accumulator's state: the result list, the cursor, the fetch status and the attempt flag. */
  class AuditEventsState {
    var events: seq<Event>
    var fetchStartKey: string
    var fetchStatus: string
    var attempt: Attempt
    /** The unfiltered events received since the last successful initial load. */
    ghost var received: seq<Event>

    ghost predicate Valid()
      reads this
    {
      && events == FilterDatabaseEvents(received)
      && fetchStatus in {"", "loading", "disabled"}
    }

    /** In every reachable state the list holds database events only. */
    lemma OnlyDatabaseEvents()
      requires Valid()
      ensures forall i :: 0 <= i < |events| ==> IsDatabaseEvent(events[i])
    {
      FilterKeepsExactlyAllowed(DatabaseEventCodes, received);
    }

    /** The state before the first load: empty list, empty cursor, load in progress. */
    constructor ()
      ensures Valid()
      ensures events == [] && fetchStartKey == "" && fetchStatus == "" && attempt == Processing
    {
      events, fetchStartKey, fetchStatus, attempt := [], "", "", Processing;
      received := [];
    }

    /**
     * The initial load of a range. On success the list is replaced by the
     * allow-listed events of the first page, in server order, and the cursor and
     * status follow the page; on a rejection only the attempt flag changes.
     */
    method Fetch(resp: Response)
      requires Valid()
      modifies this
      ensures Valid()
      ensures resp.Success? ==>
        && events == FilterDatabaseEvents(resp.value.events)
        && fetchStartKey == resp.value.startKey
        && fetchStatus == StatusAfter(resp.value.startKey)
        && attempt == Succeeded
      ensures resp.Failure? ==>
        && events == old(events)
        && fetchStartKey == old(fetchStartKey)
        && fetchStatus == old(fetchStatus)
        && attempt == Failed(resp.error)
    {
      match resp
      case Success(page) =>
        var filtered := FilterDatabaseEvents(page.events);
        events, fetchStartKey, fetchStatus := filtered, page.startKey, StatusAfter(page.startKey);
        received := page.events;
        attempt := Succeeded;
      case Failure(message) =>
        attempt := Failed(message);
    }

    /**
     * The first half of a load-more: only offered while the status is "" (the
     * button is hidden once "disabled" and disabled while "loading"). It marks
     * the status "loading" and returns the cursor the request is sent with.
     */
    method BeginFetchMore() returns (startKey: string)
      requires Valid() && fetchStatus == ""
      modifies this
      ensures Valid()
      ensures startKey == fetchStartKey == old(fetchStartKey)
      ensures fetchStatus == "loading"
      ensures events == old(events) && attempt == old(attempt) && received == old(received)
    {
      startKey := fetchStartKey;
      fetchStatus := "loading";
    }

    /**
     * The second half of a load-more, applying the audit service's answer. On
     * success the page is appended and the whole list re-filtered, so the old
     * list stays as a prefix followed by the page's database events in order;
     * the cursor and status follow the page. On a rejection the attempt flag is
     * set to failed and the list, the cursor and the "loading" status stay.
     */
    method CompleteFetchMore(resp: Response)
      requires Valid() && fetchStatus == "loading"
      modifies this
      ensures Valid()
      ensures resp.Success? ==>
        && events == old(events) + FilterDatabaseEvents(resp.value.events)
        && fetchStartKey == resp.value.startKey
        && fetchStatus == StatusAfter(resp.value.startKey)
        && attempt == old(attempt)
      ensures resp.Failure? ==>
        && events == old(events)
        && fetchStartKey == old(fetchStartKey)
        && fetchStatus == "loading"
        && attempt == Failed(resp.error)
    {
      match resp
      case Success(page) =>
        events := events + page.events;
        fetchStartKey := page.startKey;
        fetchStatus := StatusAfter(page.startKey);
        received := received + page.events;
        events := FilterDatabaseEvents(events);
        RefilterAfterAppend(DatabaseEventCodes, old(received), page.events);
      case Failure(message) =>
        attempt := Failed(message);
    }
  }

  /** Every kept event's code is one of the case labels of the description switch. */
  lemma DatabaseEventsAreDescribed(e: Event)
    requires IsDatabaseEvent(e)
    ensures e.code in EventHelpers.DescribedCodes
  {
  }

  /** A kept event is never drawn with the warning icon. */
  lemma DatabaseEventsNeverWarn(e: Event)
    requires IsDatabaseEvent(e)
    ensures EventHelpers.DatabaseEventIcon(e.code) != EventHelpers.AlertTriangle
  {
    EventHelpers.IconTables(e.code);
  }

  /** A kept event is a failure exactly when it is drawn with the XCircle icon. */
  lemma DatabaseEventFailureIsXCircle(e: Event)
    requires IsDatabaseEvent(e)
    ensures !EventHelpers.IsSuccessfulEvent(e) <==> EventHelpers.DatabaseEventIcon(e.code) == EventHelpers.XCircle
  {
    EventHelpers.IconTables(e.code);
  }

  /**
   * A first page holding a stray event, then a load-more that exhausts the
   * range: the stray event is dropped and the status ends "disabled".
   */
  method PaginationScenario(e1: Event, e2: Event, stray: Event)
    requires IsDatabaseEvent(e1) && IsDatabaseEvent(e2)
    requires !IsDatabaseEvent(stray)
  {
    assert FilterDatabaseEvents([e1, stray]) == [e1] by {
      assert [e1, stray][1..] == [stray] && [stray][1..] == [];
      assert !HasCodeIn(DatabaseEventCodes, stray);
      assert FilterByCodes(DatabaseEventCodes, [stray]) == [];
    }
    FilterKeepsAllowed(DatabaseEventCodes, [e2]);
    var state := new AuditEventsState();
    state.Fetch(Success(Page([e1, stray], "k1")));
    assert state.events == [e1] && state.fetchStatus == "";
    var key := state.BeginFetchMore();
    assert key == "k1";
    state.CompleteFetchMore(Success(Page([e2], "")));
    assert state.events == [e1, e2] && state.fetchStatus == "disabled";
  }

  /** A rejected load-more keeps the list and leaves the status "loading". */
  method FailedFetchMoreScenario(e1: Event)
    requires IsDatabaseEvent(e1)
  {
    FilterKeepsAllowed(DatabaseEventCodes, [e1]);
    var state := new AuditEventsState();
    state.Fetch(Success(Page([e1], "k1")));
    var key := state.BeginFetchMore();
    state.CompleteFetchMore(Failure("timeout"));
    assert state.attempt == Failed("timeout") && state.events == [e1];
    assert state.fetchStartKey == "k1" && state.fetchStatus == "loading";
  }
}
