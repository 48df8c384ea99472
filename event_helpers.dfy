/**
 * Classification of database audit events: an icon category, a description,
 * whether the event carries a query, the query text, and a success verdict.
 * Every function is total: unknown codes fall through to a generic answer.
 */
module EventHelpers {
  import opened Wrappers
  import opened Audit

  /** The five icons the audit view draws next to an event. */
  datatype Icon = Terminal | CheckCircle | XCircle | AlertTriangle | Database

  // The case lists of the icon switch in DatabaseEventIcon, one table per
  // icon, kept so that properties can be stated against them (IconTables).
  const TerminalIconCodes: set<EventCode> := {
    "DATABASE_SESSION_QUERY", "POSTGRES_EXECUTE", "MYSQL_STATEMENT_EXECUTE",
    "CASSANDRA_EXECUTE_EVENT", "ELASTICSEARCH_REQUEST", "OPENSEARCH_REQUEST",
    "DYNAMODB_REQUEST", "SPANNER_RPC"
  }
  const CheckCircleIconCodes: set<EventCode> := {
    "DATABASE_SESSION_STARTED", "DATABASE_SESSION_ENDED"
  }
  const XCircleIconCodes: set<EventCode> := {
    "DATABASE_SESSION_STARTED_FAILURE", "DATABASE_SESSION_QUERY_FAILURE",
    "ELASTICSEARCH_REQUEST_FAILURE", "OPENSEARCH_REQUEST_FAILURE",
    "DYNAMODB_REQUEST_FAILURE", "SPANNER_RPC_DENIED"
  }
  const AlertTriangleIconCodes: set<EventCode> := {
    "DATABASE_SESSION_MALFORMED_PACKET", "DATABASE_SESSION_USER_CREATE_FAILURE",
    "DATABASE_SESSION_USER_DEACTIVATE_FAILURE"
  }

  /** Codes that are known to carry a query, whatever their payload. */
  const QueryEventCodes: seq<EventCode> := [
    "DATABASE_SESSION_QUERY", "DATABASE_SESSION_QUERY_FAILURE", "POSTGRES_PARSE",
    "MYSQL_STATEMENT_PREPARE", "CASSANDRA_PREPARE_EVENT", "ELASTICSEARCH_REQUEST",
    "OPENSEARCH_REQUEST", "DYNAMODB_REQUEST"
  ]

  /** Codes that report an explicit failure. */
  const FailureCodes: seq<EventCode> := [
    "DATABASE_SESSION_STARTED_FAILURE", "DATABASE_SESSION_QUERY_FAILURE",
    "DATABASE_SESSION_USER_CREATE_FAILURE", "DATABASE_SESSION_USER_DEACTIVATE_FAILURE",
    "ELASTICSEARCH_REQUEST_FAILURE", "OPENSEARCH_REQUEST_FAILURE",
    "DYNAMODB_REQUEST_FAILURE", "SPANNER_RPC_DENIED"
  ]

  /**
   * The case labels of DatabaseEventDescription whose template names the
   * database user rather than the service.
   */
  const DbUserCodes: set<EventCode> := {
    "DATABASE_SESSION_USER_CREATE", "DATABASE_SESSION_USER_CREATE_FAILURE",
    "DATABASE_SESSION_USER_DEACTIVATE", "DATABASE_SESSION_USER_DEACTIVATE_FAILURE"
  }

  /**
   * The case labels of DatabaseEventDescription, kept as a table so that the
   * fallback can be stated against it (DescriptionFallback).
   */
  const DescribedCodes: set<EventCode> := DbUserCodes + {
    "DATABASE_SESSION_QUERY", "DATABASE_SESSION_QUERY_FAILURE",
    "DATABASE_SESSION_STARTED", "DATABASE_SESSION_STARTED_FAILURE",
    "DATABASE_SESSION_ENDED", "DATABASE_SESSION_MALFORMED_PACKET",
    "DATABASE_SESSION_PERMISSIONS_UPDATE",
    "POSTGRES_PARSE", "POSTGRES_BIND", "POSTGRES_EXECUTE", "POSTGRES_CLOSE",
    "POSTGRES_FUNCTION_CALL",
    "MYSQL_STATEMENT_PREPARE", "MYSQL_STATEMENT_EXECUTE", "MYSQL_STATEMENT_SEND_LONG_DATA",
    "MYSQL_STATEMENT_CLOSE", "MYSQL_STATEMENT_RESET", "MYSQL_STATEMENT_FETCH",
    "MYSQL_STATEMENT_BULK_EXECUTE", "MYSQL_INIT_DB", "MYSQL_CREATE_DB", "MYSQL_DROP_DB",
    "MYSQL_SHUT_DOWN", "MYSQL_PROCESS_KILL", "MYSQL_DEBUG", "MYSQL_REFRESH",
    "SQLSERVER_RPC_REQUEST",
    "CASSANDRA_BATCH_EVENT", "CASSANDRA_PREPARE_EVENT", "CASSANDRA_EXECUTE_EVENT",
    "CASSANDRA_REGISTER_EVENT",
    "ELASTICSEARCH_REQUEST", "ELASTICSEARCH_REQUEST_FAILURE",
    "OPENSEARCH_REQUEST", "OPENSEARCH_REQUEST_FAILURE",
    "DYNAMODB_REQUEST", "DYNAMODB_REQUEST_FAILURE",
    "SPANNER_RPC", "SPANNER_RPC_DENIED"
  }

  /** The icon for an event code; every code not listed gets the generic database icon. */
  function DatabaseEventIcon(code: EventCode): (icon: Icon)
  {
    match code
    case "DATABASE_SESSION_QUERY" => Terminal
    case "POSTGRES_EXECUTE" => Terminal
    case "MYSQL_STATEMENT_EXECUTE" => Terminal
    case "CASSANDRA_EXECUTE_EVENT" => Terminal
    case "ELASTICSEARCH_REQUEST" => Terminal
    case "OPENSEARCH_REQUEST" => Terminal
    case "DYNAMODB_REQUEST" => Terminal
    case "SPANNER_RPC" => Terminal
    case "DATABASE_SESSION_STARTED" => CheckCircle
    case "DATABASE_SESSION_ENDED" => CheckCircle
    case "DATABASE_SESSION_STARTED_FAILURE" => XCircle
    case "DATABASE_SESSION_QUERY_FAILURE" => XCircle
    case "ELASTICSEARCH_REQUEST_FAILURE" => XCircle
    case "OPENSEARCH_REQUEST_FAILURE" => XCircle
    case "DYNAMODB_REQUEST_FAILURE" => XCircle
    case "SPANNER_RPC_DENIED" => XCircle
    case "DATABASE_SESSION_MALFORMED_PACKET" => AlertTriangle
    case "DATABASE_SESSION_USER_CREATE_FAILURE" => AlertTriangle
    case "DATABASE_SESSION_USER_DEACTIVATE_FAILURE" => AlertTriangle
    case _ => Database
  }

  /** The switch agrees with the tables, and a code outside all four tables is drawn as Database. */
  lemma IconTables(code: EventCode)
    ensures DatabaseEventIcon(code) == Terminal <==> code in TerminalIconCodes
    ensures DatabaseEventIcon(code) == CheckCircle <==> code in CheckCircleIconCodes
    ensures DatabaseEventIcon(code) == XCircle <==> code in XCircleIconCodes
    ensures DatabaseEventIcon(code) == AlertTriangle <==> code in AlertTriangleIconCodes
    ensures DatabaseEventIcon(code) == Database <==>
      code !in TerminalIconCodes + CheckCircleIconCodes + XCircleIconCodes + AlertTriangleIconCodes
  {
  }

  /** The service name used in descriptions: `db_service`, or "Unknown" when it is missing or empty. */
  function ServiceName(raw: map<string, string>): (name: string)
    ensures name != ""
  {
    FieldOr(raw, "db_service", "Unknown")
  }

  /** The database user name used in descriptions: `db_user`, or "Unknown". */
  function DbUserName(raw: map<string, string>): (name: string)
    ensures name != ""
  {
    FieldOr(raw, "db_user", "Unknown")
  }

  /** A human-readable sentence for an event. */
  function DatabaseEventDescription(e: Event): (sentence: string)
  {
    var user, service, dbUser := e.user, ServiceName(e.raw), DbUserName(e.raw);
    match e.code
    case "DATABASE_SESSION_QUERY" => "Database query executed by " + user + " on " + service
    case "DATABASE_SESSION_QUERY_FAILURE" => "Database query failed for " + user + " on " + service
    case "DATABASE_SESSION_STARTED" => "Database session started by " + user + " on " + service
    case "DATABASE_SESSION_STARTED_FAILURE" => "Database session start failed for " + user + " on " + service
    case "DATABASE_SESSION_ENDED" => "Database session ended by " + user + " on " + service
    case "DATABASE_SESSION_MALFORMED_PACKET" => "Malformed database packet detected on " + service
    case "DATABASE_SESSION_PERMISSIONS_UPDATE" => "Database permissions updated for " + user + " on " + service
    case "DATABASE_SESSION_USER_CREATE" => "Database user created: " + dbUser
    case "DATABASE_SESSION_USER_CREATE_FAILURE" => "Failed to create database user: " + dbUser
    case "DATABASE_SESSION_USER_DEACTIVATE" => "Database user deactivated: " + dbUser
    case "DATABASE_SESSION_USER_DEACTIVATE_FAILURE" => "Failed to deactivate database user: " + dbUser
    case "POSTGRES_PARSE" => "PostgreSQL query parsed on " + service
    case "POSTGRES_BIND" => "PostgreSQL query bound on " + service
    case "POSTGRES_EXECUTE" => "PostgreSQL query executed on " + service
    case "POSTGRES_CLOSE" => "PostgreSQL statement closed on " + service
    case "POSTGRES_FUNCTION_CALL" => "PostgreSQL function called on " + service
    case "MYSQL_STATEMENT_PREPARE" => "MySQL statement prepared on " + service
    case "MYSQL_STATEMENT_EXECUTE" => "MySQL statement executed on " + service
    case "MYSQL_STATEMENT_SEND_LONG_DATA" => "MySQL long data sent on " + service
    case "MYSQL_STATEMENT_CLOSE" => "MySQL statement closed on " + service
    case "MYSQL_STATEMENT_RESET" => "MySQL statement reset on " + service
    case "MYSQL_STATEMENT_FETCH" => "MySQL statement fetched on " + service
    case "MYSQL_STATEMENT_BULK_EXECUTE" => "MySQL bulk statement executed on " + service
    case "MYSQL_INIT_DB" => "MySQL database initialized on " + service
    case "MYSQL_CREATE_DB" => "MySQL database created on " + service
    case "MYSQL_DROP_DB" => "MySQL database dropped on " + service
    case "MYSQL_SHUT_DOWN" => "MySQL shutdown initiated on " + service
    case "MYSQL_PROCESS_KILL" => "MySQL process killed on " + service
    case "MYSQL_DEBUG" => "MySQL debug command executed on " + service
    case "MYSQL_REFRESH" => "MySQL refresh command executed on " + service
    case "SQLSERVER_RPC_REQUEST" => "SQL Server RPC request on " + service
    case "CASSANDRA_BATCH_EVENT" => "Cassandra batch operation on " + service
    case "CASSANDRA_PREPARE_EVENT" => "Cassandra query prepared on " + service
    case "CASSANDRA_EXECUTE_EVENT" => "Cassandra query executed on " + service
    case "CASSANDRA_REGISTER_EVENT" => "Cassandra query registered on " + service
    case "ELASTICSEARCH_REQUEST" => "Elasticsearch request on " + service
    case "ELASTICSEARCH_REQUEST_FAILURE" => "Elasticsearch request failed on " + service
    case "OPENSEARCH_REQUEST" => "OpenSearch request on " + service
    case "OPENSEARCH_REQUEST_FAILURE" => "OpenSearch request failed on " + service
    case "DYNAMODB_REQUEST" => "DynamoDB request on " + service
    case "DYNAMODB_REQUEST_FAILURE" => "DynamoDB request failed on " + service
    case "SPANNER_RPC" => "Cloud Spanner RPC on " + service
    case "SPANNER_RPC_DENIED" => "Cloud Spanner RPC denied on " + service
    case _ => "Database event on " + service
  }

  /** `suffix` is a suffix of `s`. */
  predicate EndsWith(s: string, suffix: string)
  {
    |suffix| <= |s| && s[|s| - |suffix|..] == suffix
  }

  /** A code without a template of its own gets the generic sentence on the service. */
  lemma DescriptionFallback(e: Event)
    requires e.code !in DescribedCodes
    ensures DatabaseEventDescription(e) == "Database event on " + ServiceName(e.raw)
  {
  }

  /** Every description other than a database-user one ends with the name of the service. */
  lemma DescriptionNamesService(e: Event)
    requires e.code !in DbUserCodes
    ensures EndsWith(DatabaseEventDescription(e), ServiceName(e.raw))
  {
    var user, service := e.user, ServiceName(e.raw);
    match e.code
    case "DATABASE_SESSION_QUERY" => ConcatEndsWith("Database query executed by " + user + " on ", service);
    case "DATABASE_SESSION_QUERY_FAILURE" => ConcatEndsWith("Database query failed for " + user + " on ", service);
    case "DATABASE_SESSION_STARTED" => ConcatEndsWith("Database session started by " + user + " on ", service);
    case "DATABASE_SESSION_STARTED_FAILURE" => ConcatEndsWith("Database session start failed for " + user + " on ", service);
    case "DATABASE_SESSION_ENDED" => ConcatEndsWith("Database session ended by " + user + " on ", service);
    case "DATABASE_SESSION_MALFORMED_PACKET" => ConcatEndsWith("Malformed database packet detected on ", service);
    case "DATABASE_SESSION_PERMISSIONS_UPDATE" => ConcatEndsWith("Database permissions updated for " + user + " on ", service);
    case "POSTGRES_PARSE" => ConcatEndsWith("PostgreSQL query parsed on ", service);
    case "POSTGRES_BIND" => ConcatEndsWith("PostgreSQL query bound on ", service);
    case "POSTGRES_EXECUTE" => ConcatEndsWith("PostgreSQL query executed on ", service);
    case "POSTGRES_CLOSE" => ConcatEndsWith("PostgreSQL statement closed on ", service);
    case "POSTGRES_FUNCTION_CALL" => ConcatEndsWith("PostgreSQL function called on ", service);
    case "MYSQL_STATEMENT_PREPARE" => ConcatEndsWith("MySQL statement prepared on ", service);
    case "MYSQL_STATEMENT_EXECUTE" => ConcatEndsWith("MySQL statement executed on ", service);
    case "MYSQL_STATEMENT_SEND_LONG_DATA" => ConcatEndsWith("MySQL long data sent on ", service);
    case "MYSQL_STATEMENT_CLOSE" => ConcatEndsWith("MySQL statement closed on ", service);
    case "MYSQL_STATEMENT_RESET" => ConcatEndsWith("MySQL statement reset on ", service);
    case "MYSQL_STATEMENT_FETCH" => ConcatEndsWith("MySQL statement fetched on ", service);
    case "MYSQL_STATEMENT_BULK_EXECUTE" => ConcatEndsWith("MySQL bulk statement executed on ", service);
    case "MYSQL_INIT_DB" => ConcatEndsWith("MySQL database initialized on ", service);
    case "MYSQL_CREATE_DB" => ConcatEndsWith("MySQL database created on ", service);
    case "MYSQL_DROP_DB" => ConcatEndsWith("MySQL database dropped on ", service);
    case "MYSQL_SHUT_DOWN" => ConcatEndsWith("MySQL shutdown initiated on ", service);
    case "MYSQL_PROCESS_KILL" => ConcatEndsWith("MySQL process killed on ", service);
    case "MYSQL_DEBUG" => ConcatEndsWith("MySQL debug command executed on ", service);
    case "MYSQL_REFRESH" => ConcatEndsWith("MySQL refresh command executed on ", service);
    case "SQLSERVER_RPC_REQUEST" => ConcatEndsWith("SQL Server RPC request on ", service);
    case "CASSANDRA_BATCH_EVENT" => ConcatEndsWith("Cassandra batch operation on ", service);
    case "CASSANDRA_PREPARE_EVENT" => ConcatEndsWith("Cassandra query prepared on ", service);
    case "CASSANDRA_EXECUTE_EVENT" => ConcatEndsWith("Cassandra query executed on ", service);
    case "CASSANDRA_REGISTER_EVENT" => ConcatEndsWith("Cassandra query registered on ", service);
    case "ELASTICSEARCH_REQUEST" => ConcatEndsWith("Elasticsearch request on ", service);
    case "ELASTICSEARCH_REQUEST_FAILURE" => ConcatEndsWith("Elasticsearch request failed on ", service);
    case "OPENSEARCH_REQUEST" => ConcatEndsWith("OpenSearch request on ", service);
    case "OPENSEARCH_REQUEST_FAILURE" => ConcatEndsWith("OpenSearch request failed on ", service);
    case "DYNAMODB_REQUEST" => ConcatEndsWith("DynamoDB request on ", service);
    case "DYNAMODB_REQUEST_FAILURE" => ConcatEndsWith("DynamoDB request failed on ", service);
    case "SPANNER_RPC" => ConcatEndsWith("Cloud Spanner RPC on ", service);
    case "SPANNER_RPC_DENIED" => ConcatEndsWith("Cloud Spanner RPC denied on ", service);
    case "DATABASE_SESSION_USER_CREATE" => assert false;
    case "DATABASE_SESSION_USER_CREATE_FAILURE" => assert false;
    case "DATABASE_SESSION_USER_DEACTIVATE" => assert false;
    case "DATABASE_SESSION_USER_DEACTIVATE_FAILURE" => assert false;
    case _ => ConcatEndsWith("Database event on ", service);
  }

  /** A database-user description ends with the database user's name. */
  lemma DescriptionNamesDbUser(e: Event)
    requires e.code in DbUserCodes
    ensures EndsWith(DatabaseEventDescription(e), DbUserName(e.raw))
  {
    var dbUser := DbUserName(e.raw);
    match e.code
    case "DATABASE_SESSION_USER_CREATE" => ConcatEndsWith("Database user created: ", dbUser);
    case "DATABASE_SESSION_USER_CREATE_FAILURE" => ConcatEndsWith("Failed to create database user: ", dbUser);
    case "DATABASE_SESSION_USER_DEACTIVATE" => ConcatEndsWith("Database user deactivated: ", dbUser);
    case "DATABASE_SESSION_USER_DEACTIVATE_FAILURE" => ConcatEndsWith("Failed to deactivate database user: ", dbUser);
    case _ => assert false;
  }

  lemma ConcatEndsWith(p: string, s: string)
    ensures EndsWith(p + s, s)
  {
    assert (p + s)[|p|..] == s;
  }

  /**
   * The database-user descriptions depend on the code and on `db_user` only:
   * neither the Teleport user nor `db_service` changes them.
   */
  lemma DbUserDescriptionIgnoresOtherFields(e1: Event, e2: Event)
    requires e1.code == e2.code && e1.code in DbUserCodes
    requires DbUserName(e1.raw) == DbUserName(e2.raw)
    ensures DatabaseEventDescription(e1) == DatabaseEventDescription(e2)
  {
  }

  /**
   * The query text of an event: a truthy `db_query` first, then a truthy
   * `query`, else none. A returned query is never empty.
   */
  function GetEventQuery(e: Event): (q: Option<string>)
    ensures q.Some? ==> q.value != ""
    ensures q.Some? ==>
      || ("db_query" in e.raw && q.value == e.raw["db_query"])
      || ("query" in e.raw && q.value == e.raw["query"])
    ensures q.None? <==> !Truthy(e.raw, "db_query") && !Truthy(e.raw, "query")
    ensures Truthy(e.raw, "db_query") ==> q == Some(e.raw["db_query"])
  {
    if Truthy(e.raw, "db_query") then Some(e.raw["db_query"])
    else if Truthy(e.raw, "query") then Some(e.raw["query"])
    else None
  }

  /**
   * An event carries a query when its code is a query code, or otherwise when
   * a query text can be extracted from it.
   */
  function IsQueryEvent(e: Event): (b: bool)
    ensures b <==> e.code in QueryEventCodes || GetEventQuery(e).Some?
  {
    if e.code in QueryEventCodes then true
    else Truthy(e.raw, "db_query") || Truthy(e.raw, "query")
  }

  /**
   * An event is successful unless its code is a failure code. The failures are
   * exactly the XCircle codes and the two failed database-user operations, so
   * an XCircle event is never successful and a Terminal, CheckCircle or
   * Database event always is.
   */
  function IsSuccessfulEvent(e: Event): (ok: bool)
    ensures !ok <==>
      || DatabaseEventIcon(e.code) == XCircle
      || e.code == "DATABASE_SESSION_USER_CREATE_FAILURE"
      || e.code == "DATABASE_SESSION_USER_DEACTIVATE_FAILURE"
    ensures DatabaseEventIcon(e.code) in {Terminal, CheckCircle, Database} ==> ok
  {
    e.code !in FailureCodes
  }

  /** Whenever a query can be extracted, the event is classified as a query event. */
  lemma QueryImpliesQueryEvent(e: Event)
    requires GetEventQuery(e).Some?
    ensures IsQueryEvent(e)
  {
  }
}
