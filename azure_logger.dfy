/**
 * The log-shipping component (`AzureLoggerComponent`) and the configuration
 * record it shares (`LogStoreEnv`).
 *
 * Both entry points do nothing unless the record exists, its workspace id and
 * shared key are non-empty and the workspace id parses as a UUID. The
 * application-log path then stores the component's application name and
 * version into the record; the system-log path stores nothing. Both build a
 * POST request to the workspace's Data Collector URL, whose headers are the
 * log-stream name, the date, the signature, the content type and the
 * generation time, and whose body is the accent-stripped payload. The request
 * is returned instead of being transmitted; the two clock readings are
 * parameters.
 */
module AzureLogger {
  import opened Wrappers
  import opened Unicode
  import opened Platform
  import opened LogName
  import opened Signing
  import opened Headers

  const LogTypeHeader: string := "Log-Type"
  const DateHeader: string := "x-ms-date"
  const AuthorizationHeader: string := "Authorization"
  const ContentTypeHeader: string := "Content-Type"
  const TimeGeneratedHeader: string := "time-generated-field"

  /** The destination of every request: `String.format(AZURE_LA_URL, wid)`. */
  function LogsUrl(wid: string): string
  {
    "https://" + wid + ".ods.opinsights.azure.com/api/logs?api-version=2016-04-01"
  }

  /** A snapshot of the four fields of the configuration record. */
  datatype Config = Config(azureSharedKey: string, azureWid: string, appName: string, appVersion: string)

  /** The configuration record; a Java `null` field is the empty string. */
  class LogStoreEnv {
    var azureSharedKey: string
    var azureWid: string
    var appName: string
    var appVersion: string

    constructor (azureSharedKey: string, azureWid: string, appName: string, appVersion: string)
      ensures State() == Config(azureSharedKey, azureWid, appName, appVersion)
    {
      this.azureSharedKey := azureSharedKey;
      this.azureWid := azureWid;
      this.appName := appName;
      this.appVersion := appVersion;
    }

    function State(): Config
      reads this
    {
      Config(azureSharedKey, azureWid, appName, appVersion)
    }

    method SetAppName(appName: string)
      modifies this
      ensures State() == old(State()).(appName := appName)
    {
      this.appName := appName;
    }

    method SetAppVersion(appVersion: string)
      modifies this
      ensures State() == old(State()).(appVersion := appVersion)
    {
      this.appVersion := appVersion;
    }
  }

  /** Delivery goes ahead only for a non-empty workspace id that parses as a UUID and a non-empty key. */
  predicate ConfigAccepted(lib: Library, c: Config)
  {
    c.azureWid != [] && c.azureSharedKey != [] && lib.parsesAsUuid(c.azureWid)
  }

  datatype HttpMethod = POST

  datatype Request = Request(verb: HttpMethod, url: string, headers: seq<HeaderEntry>, body: string)

  /** The five headers of a request, in the order `constructHttpEntity` adds them. */
  function RequestHeaders(logType: Option<string>, date: Option<string>, authorization: Option<string>,
                          timeGenerated: Option<string>): seq<HeaderEntry>
  {
    [ HeaderEntry(LogTypeHeader, [logType]),
      HeaderEntry(DateHeader, [date]),
      HeaderEntry(AuthorizationHeader, [authorization]),
      HeaderEntry(ContentTypeHeader, [Some(ContentType)]),
      HeaderEntry(TimeGeneratedHeader, [timeGenerated]) ]
  }

  /** The request `constructHttpEntity` builds from the record `c`. */
  function RequestFor(lib: Library, c: Config, json: string, isSysLog: bool, timeGenerated: string, date: string): Request
  {
    var body := lib.stripAccents(json);
    Request(POST, LogsUrl(c.azureWid),
      RequestHeaders(Some(ConstructAzureLogNm(c.appName, c.appVersion, isSysLog)), Some(date),
                     ComputeAuthHdr(lib, c.azureSharedKey, c.azureWid, body, isSysLog, date), Some(timeGenerated)),
      body)
  }

  /** The single value of a header, or the empty string when it has none or several. */
  function SingleValue(r: Request, name: string): string
  {
    var vs := Get(r.headers, name);
    if |vs| == 1 && vs[0].Some? then vs[0].value else ""
  }

  /**
   * The canonical string a receiver reconstructs from a request alone: the
   * length of its body (bytes for application logs, UTF-16 units for system
   * logs) and its `x-ms-date` header.
   */
  function ReceivedCanonical(r: Request, isSysLog: bool): string
  {
    CanonicalString(BodyLength(r.body, isSysLog), SingleValue(r, DateHeader))
  }

  /** The five headers come in their fixed order and no two share a key. */
  lemma RequestHeadersOrder(logType: Option<string>, date: Option<string>, authorization: Option<string>,
                            timeGenerated: Option<string>)
    ensures var hs := RequestHeaders(logType, date, authorization, timeGenerated);
      && DistinctKeys(hs)
      && Names(hs) == [LogTypeHeader, DateHeader, AuthorizationHeader, ContentTypeHeader, TimeGeneratedHeader]
  {
    var hs := RequestHeaders(logType, date, authorization, timeGenerated);
    forall i, j | 0 <= i < j < |hs| ensures Key(hs[i].name) != Key(hs[j].name) {
      assert |Key(hs[i].name)| != |Key(hs[j].name)|;
    }
  }

  /** Each lookup among the five headers finds exactly its own value. */
  lemma RequestHeadersLookup(logType: Option<string>, date: Option<string>, authorization: Option<string>,
                             timeGenerated: Option<string>)
    ensures var hs := RequestHeaders(logType, date, authorization, timeGenerated);
      && Get(hs, LogTypeHeader) == [logType]
      && Get(hs, DateHeader) == [date]
      && Get(hs, AuthorizationHeader) == [authorization]
      && Get(hs, ContentTypeHeader) == [Some(ContentType)]
      && Get(hs, TimeGeneratedHeader) == [timeGenerated]
  {
    var hs := RequestHeaders(logType, date, authorization, timeGenerated);
    RequestHeadersOrder(logType, date, authorization, timeGenerated);
    FindUnique(hs, LogTypeHeader, 0);
    FindUnique(hs, DateHeader, 1);
    FindUnique(hs, AuthorizationHeader, 2);
    FindUnique(hs, ContentTypeHeader, 3);
    FindUnique(hs, TimeGeneratedHeader, 4);
  }

  /**
   * The request is a POST to the workspace URL with the five headers in
   * order, each with one value, and the accent-stripped body.
   */
  lemma RequestShape(lib: Library, c: Config, json: string, isSysLog: bool, timeGenerated: string, date: string)
    ensures var r := RequestFor(lib, c, json, isSysLog, timeGenerated, date);
      && r.verb == POST
      && r.url == LogsUrl(c.azureWid)
      && r.body == lib.stripAccents(json)
      && Names(r.headers) == [LogTypeHeader, DateHeader, AuthorizationHeader, ContentTypeHeader, TimeGeneratedHeader]
      && Get(r.headers, LogTypeHeader) == [Some(ConstructAzureLogNm(c.appName, c.appVersion, isSysLog))]
      && Get(r.headers, DateHeader) == [Some(date)]
      && |Get(r.headers, AuthorizationHeader)| == 1
      && Get(r.headers, ContentTypeHeader) == [Some(ContentType)]
      && Get(r.headers, TimeGeneratedHeader) == [Some(timeGenerated)]
  {
    var body := lib.stripAccents(json);
    var logType := Some(ConstructAzureLogNm(c.appName, c.appVersion, isSysLog));
    var authorization := ComputeAuthHdr(lib, c.azureSharedKey, c.azureWid, body, isSysLog, date);
    RequestHeadersOrder(logType, Some(date), authorization, Some(timeGenerated));
    RequestHeadersLookup(logType, Some(date), authorization, Some(timeGenerated));
  }

  /** A name whose length differs from every present name is new: `add` and `set` append it. */
  lemma NewName(entries: seq<HeaderEntry>, name: string, value: Option<string>)
    requires forall j :: 0 <= j < |entries| ==> |entries[j].name| != |name|
    ensures AddValue(entries, name, value) == SetValue(entries, name, value) == entries + [HeaderEntry(name, [value])]
  {
  }

  /** The four `add` calls and the final `set` of `constructHttpEntity` on a fresh collection. */
  lemma FiveNewHeaders(logType: Option<string>, date: Option<string>, authorization: Option<string>,
                       timeGenerated: Option<string>)
    ensures SetValue(AddValue(AddValue(AddValue(AddValue([], LogTypeHeader, logType), DateHeader, date),
                                       AuthorizationHeader, authorization), ContentTypeHeader, Some(ContentType)),
                     TimeGeneratedHeader, timeGenerated)
         == RequestHeaders(logType, date, authorization, timeGenerated)
  {
    var e0: seq<HeaderEntry> := [];
    NewName(e0, LogTypeHeader, logType);
    var e1 := e0 + [HeaderEntry(LogTypeHeader, [logType])];
    NewName(e1, DateHeader, date);
    var e2 := e1 + [HeaderEntry(DateHeader, [date])];
    NewName(e2, AuthorizationHeader, authorization);
    var e3 := e2 + [HeaderEntry(AuthorizationHeader, [authorization])];
    NewName(e3, ContentTypeHeader, Some(ContentType));
    var e4 := e3 + [HeaderEntry(ContentTypeHeader, [Some(ContentType)])];
    NewName(e4, TimeGeneratedHeader, timeGenerated);
  }

  /**
   * The signature covers what is sent: the `Authorization` header is the
   * signature of the canonical string a receiver rebuilds from the
   * transmitted body and `x-ms-date` header. For application logs the signed
   * length is the byte length of the UTF-8 body.
   */
  lemma SignatureCoversRequest(lib: Library, c: Config, json: string, isSysLog: bool, timeGenerated: string, date: string)
    ensures var r := RequestFor(lib, c, json, isSysLog, timeGenerated, date);
      && Get(r.headers, AuthorizationHeader) == [CreateAuthorizationHeader(lib, c.azureSharedKey, c.azureWid, ReceivedCanonical(r, isSysLog))]
      && ParseCanonical(ReceivedCanonical(r, isSysLog)) == Some((BodyLength(r.body, isSysLog), SingleValue(r, DateHeader)))
      && (!isSysLog ==> BodyLength(r.body, isSysLog) == |Utf8Encode(r.body)|)
  {
    var r := RequestFor(lib, c, json, isSysLog, timeGenerated, date);
    RequestHeadersLookup(Some(ConstructAzureLogNm(c.appName, c.appVersion, isSysLog)), Some(date),
                         ComputeAuthHdr(lib, c.azureSharedKey, c.azureWid, r.body, isSysLog, date), Some(timeGenerated));
    assert SingleValue(r, DateHeader) == date;
    ParseCanonicalString(BodyLength(r.body, isSysLog), date);
  }

  /**
   * End to end, for an application name without the six removed characters,
   * a non-empty version, a workspace id free of ':' and a usable key: the
   * request goes to the workspace, is typed "<name>_<version>_al", declares
   * JSON and carries a "SharedKey <workspace id>:<digest>" value.
   */
  lemma ApplicationLogScenario(lib: Library, key: string, wid: string, appName: string, appVersion: string,
                               json: string, timeGenerated: string, date: string)
    requires NoSpecials(appName) && appVersion != []
    requires ':' !in wid
    requires lib.base64Decode(key).Some? && lib.base64Decode(key).value != []
    ensures var r := RequestFor(lib, Config(key, wid, appName, appVersion), json, false, timeGenerated, date);
      && r.url == "https://" + wid + ".ods.opinsights.azure.com/api/logs?api-version=2016-04-01"
      && Get(r.headers, LogTypeHeader) == [Some(appName + "_" + appVersion + "_al")]
      && Get(r.headers, ContentTypeHeader) == [Some("application/json")]
      && var auth := Get(r.headers, AuthorizationHeader);
         |auth| == 1 && auth[0].Some? && ParseAuthorization(auth[0].value).Some?
         && ParseAuthorization(auth[0].value).value.0 == wid
  {
    var c := Config(key, wid, appName, appVersion);
    var r := RequestFor(lib, c, json, false, timeGenerated, date);
    assert r.url == "https://" + wid + ".ods.opinsights.azure.com/api/logs?api-version=2016-04-01";
    assert Get(r.headers, LogTypeHeader) == [Some(appName + "_" + appVersion + "_al")]
        && Get(r.headers, ContentTypeHeader) == [Some("application/json")] by {
      RequestShape(lib, c, json, false, timeGenerated, date);
      PlainNameKept(appName, appVersion, false);
    }
    var auth := Get(r.headers, AuthorizationHeader);
    assert |auth| == 1 && auth[0].Some? && ParseAuthorization(auth[0].value).Some?
        && ParseAuthorization(auth[0].value).value.0 == wid by {
      SignatureCoversRequest(lib, c, json, false, timeGenerated, date);
      ParseCreateAuthorizationHeader(lib, key, wid, ReceivedCanonical(r, false));
    }
  }

  /** The component with its injected configuration and library. */
  class AzureLoggerComponent {
    const logStoreEnv: LogStoreEnv?
    const appName: string
    const appVersion: string
    const lib: Library

    constructor (logStoreEnv: LogStoreEnv?, appName: string, appVersion: string, lib: Library)
      ensures this.logStoreEnv == logStoreEnv && this.appName == appName && this.appVersion == appVersion && this.lib == lib
    {
      this.logStoreEnv := logStoreEnv;
      this.appName := appName;
      this.appVersion := appVersion;
      this.lib := lib;
    }

    /** Whether the configuration guard of both entry points lets delivery go ahead. */
    predicate Configured()
      reads this, logStoreEnv
    {
      logStoreEnv != null && ConfigAccepted(lib, logStoreEnv.State())
    }

    /** `constructHttpEntity(json, isSysLog)`, with the two clock readings as arguments. */
    method ConstructHttpEntity(json: string, isSysLog: bool, timeGenerated: string, date: string) returns (r: Request)
      requires logStoreEnv != null
      ensures r == RequestFor(lib, logStoreEnv.State(), json, isSysLog, timeGenerated, date)
    {
      var httpHeaders := new HttpHeaders();
      var logType := Some(ConstructAzureLogNm(logStoreEnv.appName, logStoreEnv.appVersion, isSysLog));
      httpHeaders.Add(LogTypeHeader, logType);
      httpHeaders.Add(DateHeader, Some(date));
      var body := lib.stripAccents(json);
      var authorization := ComputeAuthHdr(lib, logStoreEnv.azureSharedKey, logStoreEnv.azureWid, body, isSysLog, date);
      httpHeaders.Add(AuthorizationHeader, authorization);
      httpHeaders.Add(ContentTypeHeader, Some(ContentType));
      httpHeaders.Set(TimeGeneratedHeader, Some(timeGenerated));
      FiveNewHeaders(logType, Some(date), authorization, Some(timeGenerated));
      var url := LogsUrl(logStoreEnv.azureWid);
      r := Request(POST, url, httpHeaders.entries, body);
    }

    /**
     * `pushLogsToAzure(json)`: returns the request it would send, or `None`
     * when the guard stops it; on success the record's application name and
     * version are the component's.
     */
    method PushLogsToAzure(json: string, timeGenerated: string, date: string) returns (sent: Option<Request>)
      modifies logStoreEnv
      ensures sent.Some? <==> old(Configured())
      ensures !old(Configured()) ==> logStoreEnv == null || unchanged(logStoreEnv)
      ensures old(Configured()) ==>
        && logStoreEnv.State() == old(logStoreEnv.State()).(appName := appName, appVersion := appVersion)
        && sent == Some(RequestFor(lib, logStoreEnv.State(), json, false, timeGenerated, date))
    {
      if logStoreEnv == null || logStoreEnv.azureWid == [] || logStoreEnv.azureSharedKey == [] {
        return None;
      }
      if !lib.parsesAsUuid(logStoreEnv.azureWid) {
        return None;
      }
      logStoreEnv.SetAppName(appName);
      logStoreEnv.SetAppVersion(appVersion);
      var request := ConstructHttpEntity(json, false, timeGenerated, date);
      sent := Some(request);
    }

    /**
     * `pushSysLogsToAzure(json)`: returns the request its worker thread would
     * send, or `None` when the guard stops it; the record is never changed.
     */
    method PushSysLogsToAzure(json: string, timeGenerated: string, date: string) returns (sent: Option<Request>)
      ensures sent.Some? <==> Configured()
      ensures Configured() ==> sent == Some(RequestFor(lib, logStoreEnv.State(), json, true, timeGenerated, date))
    {
      if logStoreEnv == null || logStoreEnv.azureWid == [] || logStoreEnv.azureSharedKey == [] {
        return None;
      }
      if !lib.parsesAsUuid(logStoreEnv.azureWid) {
        return None;
      }
      var request := ConstructHttpEntity(json, true, timeGenerated, date);
      sent := Some(request);
    }
  }
}
