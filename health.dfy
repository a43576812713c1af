/** `HealthService`: dependency checks and their aggregation into one status.
    The database query and the HTTP probes are inputs (their outcomes). */
module Health {
  import opened Wrappers
  import opened Text

  datatype CheckStatus = Ok | Error

  datatype DependencyHealth = DependencyHealth(status: CheckStatus, message: Option<string>)

  datatype Overall = OverallOk | Degraded | Unhealthy

  datatype Dependencies = Dependencies(
    database: Option<DependencyHealth>,
    logging: Option<DependencyHealth>,
    notification: Option<DependencyHealth>,
    redis: Option<DependencyHealth>)

  datatype HealthStatus = HealthStatus(
    status: Overall,
    timestamp: string,
    service: string,
    dependencies: Dependencies)

  // ---- The individual checks ----

  /** Outcome of `SELECT 1`; a failure carries the driver's message (possibly empty). */
  datatype QueryOutcome = QueryOk | QueryFailed(message: string)

  function CheckDatabase(q: QueryOutcome): (h: DependencyHealth)
    ensures h.status == Ok <==> q.QueryOk?
    ensures q.QueryFailed? ==> h.message == Some(if q.message != "" then q.message else "Database connection failed")
  {
    match q
    case QueryOk => DependencyHealth(Ok, None)
    case QueryFailed(m) => DependencyHealth(Error, Some(if m != "" then m else "Database connection failed"))
  }

  /** The JSON body of a health endpoint: `success` is its truthiness, `status` the
      field when it is a string. */
  datatype ProbeBody = ProbeBody(success: bool, status: Option<string>)

  /** Outcome of a GET with a 3-second timeout: a response whose `data` may be absent,
      or a failure (error, timeout), which `catchError` turns into one fixed message. */
  datatype HttpOutcome = Responded(data: Option<ProbeBody>) | RequestFailed

  /** `response.data?.success || response.data?.status === 'ok'`. */
  predicate ReportsHealthy(o: HttpOutcome) {
    o.Responded? && o.data.Some? && (o.data.value.success || o.data.value.status == Some("ok"))
  }

  function ProbeResult(o: HttpOutcome, service: string): (h: DependencyHealth)
    ensures h.status == Ok <==> ReportsHealthy(o)
  {
    if ReportsHealthy(o) then DependencyHealth(Ok, None)
    else if o.Responded? then DependencyHealth(Error, Some(service + " service returned unhealthy status"))
    else DependencyHealth(Error, Some(service + " service unavailable"))
  }

  const DefaultLoggingUrl := "http://logging-microservice:3009"
  const DefaultNotificationUrl := "http://notification-microservice:3010"

  function ConfigOr(configured: Option<string>, default: string): string {
    if configured.Some? && configured.value != "" then configured.value else default
  }

  /** The URL `checkLoggingService` requests: the first `/api/logs` of the configured
      URL replaced by `/health`. */
  function LoggingHealthUrl(configured: Option<string>): string {
    ReplaceFirst(ConfigOr(configured, DefaultLoggingUrl), "/api/logs", "/health")
  }

  /** The URL `checkNotificationService` requests. */
  function NotificationHealthUrl(configured: Option<string>): string {
    ConfigOr(configured, DefaultNotificationUrl) + "/health"
  }

  /** A logging URL that ends in its only `/api/logs` is probed at `/health` instead. */
  lemma LoggingUrlRewrite(base: string)
    requires forall j :: 0 <= j < |base| ==> !OccursAt(base + "/api/logs", "/api/logs", j)
    ensures LoggingHealthUrl(Some(base + "/api/logs")) == base + "/health"
  {
    var s := base + "/api/logs";
    assert OccursAt(s, "/api/logs", |base|);
    assert s[..|base|] == base && s[|base| + 9..] == "";
  }

  /** A URL without `/api/logs`, such as the default, is probed unchanged: the logging
      probe then requests the service's root, not a `/health` path. */
  lemma LoggingUrlWithoutApiLogs(configured: Option<string>)
    requires forall j :: 0 <= j <= |ConfigOr(configured, DefaultLoggingUrl)|
               ==> !OccursAt(ConfigOr(configured, DefaultLoggingUrl), "/api/logs", j)
    ensures LoggingHealthUrl(configured) == ConfigOr(configured, DefaultLoggingUrl)
  {
  }

  /** The default logging URL contains no `/api/logs` (it contains no `a` at all). */
  lemma DefaultLoggingUrlHasNoApiLogs()
    ensures forall j :: 0 <= j <= |DefaultLoggingUrl| ==> !OccursAt(DefaultLoggingUrl, "/api/logs", j)
  {
    forall j | 0 <= j <= |DefaultLoggingUrl|
      ensures !OccursAt(DefaultLoggingUrl, "/api/logs", j)
    {
      var s := DefaultLoggingUrl;
      assert forall k :: 0 <= k < |s| ==> s[k] != 'a';
      if j + 9 <= |s| {
        assert s[j..j + 9][1] == s[j + 1] != 'a';
      }
    }
  }

  function CheckLoggingService(o: HttpOutcome): (h: DependencyHealth)
    ensures h.status == Ok <==> ReportsHealthy(o)
  {
    ProbeResult(o, "Logging")
  }

  function CheckNotificationService(o: HttpOutcome): (h: DependencyHealth)
    ensures h.status == Ok <==> ReportsHealthy(o)
  {
    ProbeResult(o, "Notification")
  }

  /** `checkRedis` reports ok unconditionally (and is never called by `getHealthStatus`). */
  function CheckRedis(): (h: DependencyHealth)
    ensures h.status == Ok && h.message.None?
  {
    DependencyHealth(Ok, None)
  }

  // ---- Aggregation ----

  /** A non-critical check either returns its result or throws. */
  datatype CheckCall = Returned(health: DependencyHealth) | Threw

  function Recorded(c: CheckCall): (h: DependencyHealth)
    ensures c.Threw? ==> h == DependencyHealth(Error, Some("Check failed"))
  {
    match c
    case Returned(h) => h
    case Threw => DependencyHealth(Error, Some("Check failed"))
  }

  predicate ChecksNotification(serviceName: string) { serviceName == "order-service" }

  /** Reference definition of the overall status: unhealthy exactly when the database
      fails, otherwise degraded exactly when some checked non-critical dependency fails. */
  function OverallStatus(serviceName: string, db: DependencyHealth, logging: DependencyHealth,
                         notification: DependencyHealth): Overall
  {
    if db.status == Error then Unhealthy
    else if logging.status == Error || (ChecksNotification(serviceName) && notification.status == Error) then Degraded
    else OverallOk
  }

  function Rank(s: Overall): nat {
    match s
    case OverallOk => 0
    case Degraded => 1
    case Unhealthy => 2
  }

  /** One non-critical update: `ok` becomes `degraded` on a failing check, nothing else changes. */
  function Degrade(acc: Overall, dep: DependencyHealth): (r: Overall)
    ensures Rank(r) >= Rank(acc)
    ensures r != acc ==> acc == OverallOk && r == Degraded
    ensures dep.status == Ok ==> r == acc
  {
    if dep.status == Error && acc == OverallOk then Degraded else acc
  }

  method GetHealthStatus(serviceName: string, timestamp: string, db: QueryOutcome,
                         logging: CheckCall, notification: CheckCall) returns (h: HealthStatus)
    ensures h.service == serviceName && h.timestamp == timestamp
    ensures h.dependencies.database == Some(CheckDatabase(db))
    ensures h.dependencies.logging == Some(Recorded(logging))
    ensures h.dependencies.notification == if ChecksNotification(serviceName) then Some(Recorded(notification)) else None
    ensures h.dependencies.redis.None?
    ensures h.status == OverallStatus(serviceName, CheckDatabase(db), Recorded(logging), Recorded(notification))
  {
    var dependencies := Dependencies(None, None, None, None);
    var overallStatus := OverallOk;

    var dbHealth := CheckDatabase(db);
    dependencies := dependencies.(database := Some(dbHealth));
    if dbHealth.status == Error {
      overallStatus := Unhealthy;
    }

    match logging {
      case Returned(r) =>
        dependencies := dependencies.(logging := Some(r));
        if r.status == Error && overallStatus == OverallOk {
          overallStatus := Degraded;
        }
      case Threw =>
        dependencies := dependencies.(logging := Some(DependencyHealth(Error, Some("Check failed"))));
        if overallStatus == OverallOk {
          overallStatus := Degraded;
        }
    }

    if serviceName == "order-service" {
      match notification {
        case Returned(r) =>
          dependencies := dependencies.(notification := Some(r));
          if r.status == Error && overallStatus == OverallOk {
            overallStatus := Degraded;
          }
        case Threw =>
          dependencies := dependencies.(notification := Some(DependencyHealth(Error, Some("Check failed"))));
          if overallStatus == OverallOk {
            overallStatus := Degraded;
          }
      }
    }

    h := HealthStatus(overallStatus, timestamp, serviceName, dependencies);
  }

  // ---- Properties of the aggregation ----

  /** The status is `ok` iff the database and every checked dependency report ok. */
  lemma OkIffAllOk(serviceName: string, db: DependencyHealth, logging: DependencyHealth,
                   notification: DependencyHealth)
    ensures OverallStatus(serviceName, db, logging, notification) == OverallOk
            <==> db.status == Ok && logging.status == Ok && (ChecksNotification(serviceName) ==> notification.status == Ok)
  {
  }

  /** A failing database makes the service unhealthy whatever the other checks say,
      and nothing else does. */
  lemma UnhealthyIffDatabaseFails(serviceName: string, db: DependencyHealth, logging: DependencyHealth,
                                  notification: DependencyHealth)
    ensures OverallStatus(serviceName, db, logging, notification) == Unhealthy <==> db.status == Error
  {
  }

  /** The reference status is what the sequence of updates in the source yields:
      start from the database verdict, then let each checked dependency degrade it. */
  lemma OverallIsSequentialFold(serviceName: string, db: DependencyHealth, logging: DependencyHealth,
                                notification: DependencyHealth)
    ensures var afterDb := if db.status == Error then Unhealthy else OverallOk;
            var afterLogging := Degrade(afterDb, logging);
            OverallStatus(serviceName, db, logging, notification)
              == if ChecksNotification(serviceName) then Degrade(afterLogging, notification) else afterLogging
  {
  }

  /** The notification probe matters only for the order service: for every other
      service its outcome cannot change the report. */
  lemma NotificationIgnoredElsewhere(serviceName: string, timestamp: string, db: QueryOutcome,
                                     logging: CheckCall, n1: CheckCall, n2: CheckCall)
    requires !ChecksNotification(serviceName)
    ensures OverallStatus(serviceName, CheckDatabase(db), Recorded(logging), Recorded(n1))
            == OverallStatus(serviceName, CheckDatabase(db), Recorded(logging), Recorded(n2))
  {
  }
}
