# Azure Log Analytics shipping client, modelled in Dafny

This project models the log-shipping component of a Spring Boot demo application
(`AzureLoggerComponent`). The component sends one log payload per call to the Azure
Monitor HTTP Data Collector API. It covers:

- the **log-stream name** (`Log-Type`). It is built from the application name with
  `- + . ^ : ,` removed, the version (or `v0`) and `al`/`sl` for application or system logs;
- the **configuration guard**. Nothing happens unless the configuration record exists, its
  workspace id and shared key are non-empty, and the id parses as a UUID;
- the **canonical string** that is signed:
  `POST\n<length>\napplication/json\nx-ms-date:<date>\n/api/logs`. The length counts UTF-8
  bytes for application logs and UTF-16 code units (`String.length()`) for system logs;
- the **authorization value**: `SharedKey <workspace id>:<Base64 HMAC-SHA256>`, or Java
  `null` (`None`) when the key is not Base64 or decodes to no bytes;
- the **request**: a POST to
  `https://<workspace id>.ods.opinsights.azure.com/api/logs?api-version=2016-04-01`. Its
  headers are `Log-Type`, `x-ms-date`, `Authorization`, `Content-Type`,
  `time-generated-field`, in that order, built through Spring's `HttpHeaders`. Its body is
  the accent-stripped payload;
- the **effect on the configuration record** (`LogStoreEnv`). The application-log path writes
  the component's name and version into it; the system-log path writes nothing.

Modules: `Unicode` (UTF-8/UTF-16 lengths and the UTF-8 encoding), `Decimal` (the length's
numeral and its parser), `LogName`, `Platform` (the library calls taken as function values),
`Signing`, `Headers` (the header multimap, as a class) and `AzureLogger` (the record and
the component, as classes). A Java `null` string is modelled as the empty string.
`StringUtils.isEmpty` and `StringUtils.join` treat `null` the same way.

Three details of the code shape the model:

- The filtered name is computed (`AzureLoggerComponent.java:143`) before the empty name is
  replaced by `"default"` (:144-146), so the replacement never reaches the result:
  `("", "2.0", true)` gives `"_2.0_sl"`.
- `createAuthorizationHeader` returns `null` when signing fails (:138), and that `null` is still
  added as the `Authorization` value (:106); the request is built and sent regardless.
- Only `pushLogsToAzure` writes `appName` and `appVersion` into the record (:66-67);
  `pushSysLogsToAzure` uses whatever the record holds.

## Model

| member | source | states |
|---|---|---|
| `Unicode.Utf8Encode` | src/main/java/com/example/demo/logger/AzureLoggerComponent.java:119 | the UTF-8 encoding (RFC 3629, section 3) has exactly `Utf8Len(s)` bytes, the length `getBytes(UTF_8).length` gives |
| `Unicode.Utf8LenVersusUtf16Len` | src/main/java/com/example/demo/logger/AzureLoggerComponent.java:117-120 | the UTF-8 byte count is never below the UTF-16 length; they are equal if and only if the body is ASCII, otherwise the byte count is strictly larger |
| `Unicode.AsciiLengths` | src/main/java/com/example/demo/logger/AzureLoggerComponent.java:117-120 | for an ASCII body both length rules give the number of characters |
| `Decimal.NatToString` | src/main/java/com/example/demo/logger/AzureLoggerComponent.java:121 | the length's numeral is non-empty, all decimal digits, with no leading zero except for 0 |
| `Decimal.ParseNatToString` | src/main/java/com/example/demo/logger/AzureLoggerComponent.java:121 | reading the numeral back yields the length it was made from |
| `LogName.FilterRemovesSpecials` | src/main/java/com/example/demo/logger/AzureLoggerComponent.java:33 | the filtered application name contains none of `- + . ^ : ,` |
| `LogName.FilterMembership` | src/main/java/com/example/demo/logger/AzureLoggerComponent.java:143 | a character is in the filtered name if and only if it is in the name and is not one of the six |
| `LogName.FilterCounts` | src/main/java/com/example/demo/logger/AzureLoggerComponent.java:143 | every other character keeps its number of occurrences; each of the six has none left |
| `LogName.FilterConcat` | src/main/java/com/example/demo/logger/AzureLoggerComponent.java:143 | filtering distributes over concatenation, so it keeps the remaining characters in order |
| `LogName.FilterIdentity` | src/main/java/com/example/demo/logger/AzureLoggerComponent.java:33 | filtering leaves a name unchanged if and only if it has none of the six characters |
| `LogName.FilterIdempotent` | src/main/java/com/example/demo/logger/AzureLoggerComponent.java:143 | filtering twice equals filtering once |
| `LogName.ParseConstructAzureLogNm` | src/main/java/com/example/demo/logger/AzureLoggerComponent.java:141-158 | the log-stream name splits back at its last two underscores into the filtered name, the version or `v0`, and the kind (for a version without `_`) |
| `LogName.FirstSegmentIsFilteredName` | src/main/java/com/example/demo/logger/AzureLoggerComponent.java:143-146 | the first segment is exactly the filtered original name, so the `"default"` substitute never appears; an empty name makes the result start with `_` |
| `LogName.KindFromSuffix` | src/main/java/com/example/demo/logger/AzureLoggerComponent.java:150-157 | the name ends in `_sl` if and only if it is for system logs, and in `_al` if and only if it is for application logs |
| `LogName.PlainNameKept` | src/main/java/com/example/demo/logger/AzureLoggerComponent.java:141-158 | a name without the six characters and a non-empty version appear unchanged: the result is `name_version_al` or `name_version_sl` |
| `LogName.ExampleApplicationLog` | src/main/java/com/example/demo/logger/AzureLoggerComponent.java:141-158 | `("My.App+1", "", application)` gives `"MyApp1_v0_al"` |
| `LogName.ExampleSystemLogWithoutName` | src/main/java/com/example/demo/logger/AzureLoggerComponent.java:143-157 | `("", "2.0", system)` gives `"_2.0_sl"` |
| `Signing.ParseCanonicalString` | src/main/java/com/example/demo/logger/AzureLoggerComponent.java:121-122 | the canonical string has the fixed shape; parsing it gives back exactly the body length and the date it was built from |
| `Signing.CanonicalStringInjective` | src/main/java/com/example/demo/logger/AzureLoggerComponent.java:121-122 | two canonical strings are equal if and only if their lengths and dates are |
| `Signing.SysLogLengthIsByteCountIffAscii` | src/main/java/com/example/demo/logger/AzureLoggerComponent.java:116-122 | a system-log canonical string equals the one built with the UTF-8 byte count if and only if the body is ASCII; the application-log length is the UTF-8 byte length |
| `Signing.AuthorizationFailure` | src/main/java/com/example/demo/logger/AzureLoggerComponent.java:126-139 | the authorization value is `null` if and only if the key is not Base64 or decodes to an empty key |
| `Signing.ParseCreateAuthorizationHeader` | src/main/java/com/example/demo/logger/AzureLoggerComponent.java:129-132 | a successful value is `SharedKey <wid>:<digest>`, and it parses back to the workspace id and the Base64 HMAC-SHA256 of the UTF-8 canonical string under the decoded key |
| `Headers.GetAfterAdd` | src/main/java/com/example/demo/logger/AzureLoggerComponent.java:102-107 | `add` appends the value to that name's list and leaves other names alone; names stay distinct ignoring case |
| `Headers.GetAfterSet` | src/main/java/com/example/demo/logger/AzureLoggerComponent.java:108 | `set` leaves the name with exactly the new value and other names alone |
| `Headers.NamesAfterUpdate` | src/main/java/com/example/demo/logger/AzureLoggerComponent.java:101-108 | `add` and `set` append a new name at the end of the header order; `add` on a present name and `set` under the stored spelling keep the order, while `set` under another spelling removes the old entry and appends the name under the new spelling, as Spring's case-insensitive map does |
| `Headers.GetAfterRemove` | src/main/java/com/example/demo/logger/AzureLoggerComponent.java:108 | removing an entry, as a respelled `set` does, keeps keys distinct, loses that entry's key and leaves every other lookup unchanged |
| `Headers.RespelledSet` | src/main/java/com/example/demo/logger/AzureLoggerComponent.java:108 | `set("LOG-TYPE", c)` after `Log-Type` and `x` gives `x` followed by `LOG-TYPE` with the single value `c` |
| `Headers.HttpHeaders.Add` | src/main/java/com/example/demo/logger/AzureLoggerComponent.java:102-107 | the header collection after `add`, keeping keys distinct |
| `Headers.HttpHeaders.Set` | src/main/java/com/example/demo/logger/AzureLoggerComponent.java:108 | the header collection after `set` (replaced in place, or moved to the end under a new spelling), keeping keys distinct |
| `AzureLogger.RequestShape` | src/main/java/com/example/demo/logger/AzureLoggerComponent.java:91-114 | the request is a POST to the workspace URL; it has the five headers in order, one value each, and the accent-stripped body |
| `AzureLogger.RequestHeadersOrder` | src/main/java/com/example/demo/logger/AzureLoggerComponent.java:101-108 | the five header names come in the order `Log-Type`, `x-ms-date`, `Authorization`, `Content-Type`, `time-generated-field`, and no two are equal ignoring case |
| `AzureLogger.RequestHeadersLookup` | src/main/java/com/example/demo/logger/AzureLoggerComponent.java:101-108 | looking up each of the five names gives exactly the one value added for it |
| `AzureLogger.FiveNewHeaders` | src/main/java/com/example/demo/logger/AzureLoggerComponent.java:101-108 | the four `add` calls and the final `set` on a fresh collection give exactly the five headers in order, one value each |
| `AzureLogger.SignatureCoversRequest` | src/main/java/com/example/demo/logger/AzureLoggerComponent.java:104-106 | the `Authorization` value signs the canonical string rebuilt from the sent body and `x-ms-date` header; that string holds the same date and the body's length (UTF-8 bytes for application logs) |
| `AzureLogger.ApplicationLogScenario` | src/main/java/com/example/demo/logger/AzureLoggerComponent.java:35 | for a name without the six characters, a non-empty version, a workspace id without ':' and a usable key: the URL names the workspace, `Log-Type` is `<name>_<version>_al`, `Content-Type` is `application/json`, and `Authorization` is `SharedKey <wid>:...` |
| `AzureLogger.AzureLoggerComponent.ConstructHttpEntity` | src/main/java/com/example/demo/logger/AzureLoggerComponent.java:91-114 | the successive `add`/`set` calls produce exactly the specified request for the record's current contents |
| `AzureLogger.AzureLoggerComponent.PushLogsToAzure` | src/main/java/com/example/demo/logger/AzureLoggerComponent.java:55-71 | it builds a request if and only if the guard passes; otherwise nothing changes. On success the record's name and version become the component's, the key and workspace id stay, and the request is built from the updated record |
| `AzureLogger.AzureLoggerComponent.PushSysLogsToAzure` | src/main/java/com/example/demo/logger/AzureLoggerComponent.java:73-89 | it builds a system-log request from the record if and only if the guard passes, and never changes the record |
| `AzureLogger.AzureLoggerComponent.constructor` | src/main/java/com/example/demo/logger/AzureLoggerComponent.java:40-51 | the component holds the given record, application name, version and library |
| `AzureLogger.LogStoreEnv.constructor` | src/main/java/com/example/demo/logger/LogStoreEnv.java:12-15 | the record holds the four given strings |
| `AzureLogger.LogStoreEnv.SetAppName` | src/main/java/com/example/demo/logger/LogStoreEnv.java:14 | the setter changes the application name only |
| `AzureLogger.LogStoreEnv.SetAppVersion` | src/main/java/com/example/demo/logger/LogStoreEnv.java:15 | the setter changes the application version only |

## Left out

- HTTP transport (`RestTemplate.exchange`): the request is returned instead of sent, so the response and any transport failure are not modelled.
- `UriComponentsBuilder` URI parsing: the URL is the formatted string.
- Concurrency (`@Async` and the worker thread of the system-log path): each call runs sequentially. A system-log thread reads the record when it runs, so an interleaved application-log call could change the `Log-Type` it uses. The model does not capture this.
- Clock readings: the `x-ms-date` value and the `time-generated-field` value are inputs. `SimpleDateFormat` is not modelled. This includes the default-locale day and month names and the pattern `YYYY-MM-DD'T'hh:mm:ssZ`, which uses week-year, day-of-year and 12-hour fields and is not ISO 8601.
- Base64 encoding and decoding, HMAC-SHA256, `StringUtils.stripAccents` and `UUID.fromString` are opaque function values of `Platform.Library`. This has two consequences:
  - Determinism in key, workspace id and canonical string holds by construction.
  - Collision or avalanche behaviour of HMAC, and agreement with a reference digest, cannot be stated. Whether a canonical 8-4-4-4-12 id is accepted is likewise not stated.
- `Mac.getInstance("HmacSHA256")` failing is not modelled: every Java platform must provide that algorithm. `getBytes("UTF-8")` cannot fail either. The error log written on a signing failure is not modelled.
- Java strings holding unpaired surrogates: a Dafny `char` is a Unicode scalar value. Java would encode such a surrogate to UTF-8 as `?`.
- The `Integer` body length overflowing 32 bits: Java cannot build such a body.
- `HttpHeaders` case-insensitivity folds ASCII letters only. Spring lowercases names with a locale.
- A `null` payload, and a `null` `isSysLog` flag (a `NullPointerException` in Java), are not modelled.
- `LogStoreEnv.payload` is never read by the component.
- `HelloController`, `SampleLogFormat`, Spring dependency injection and property binding are not part of this model.
