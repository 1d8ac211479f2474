# kafka-connect-restarter, modelled in Dafny

The restarter is a watchdog for Kafka Connect. Each poll cycle it lists the
connectors through the Kafka Connect REST API. For each connector it fetches
the status document. It then POSTs a restart for every task whose state is
`FAILED`, but only when the connector itself is `RUNNING`. The base URL comes
from the `--host` flag after a small normalisation.

This project models the deterministic core of `main.go` as pure functions
over immutable datatypes:

- `status.dfy` (module `Status`): the records `KCTask`, `KCTaskResponse`,
  `KCConnectorResponse` and `KCConnectorStatusResponse`. It also holds the
  constants `RUNNING` and `FAILED` and the zero status that a failed decode
  leaves behind. Go's `int`, taken as 64 bits, is the newtype `Int64`.
- `detector.dfy` (module `Detector`): the failure detector inside
  `getToRestartKCTasks`. There is a functional definition and a loop that
  mirrors the Go `for … range` with `append`; the two are proved to agree.
  The outcome of the HTTP request is an input of type `StatusReply`
  (GET failed, body read failed, or body with a decoded status or none).
- `strings.dfy` (module `Strings`): `strings.HasPrefix` and
  `strings.HasSuffix`. Go compares bytes, the model compares characters;
  the two agree here because the only prefixes and suffixes tested, "http"
  and "/", are ASCII.
- `host.dfy` (module `Host`): normalisation of `--host`, including
  `strings.Trim(s, "/")`.
- `decimal.dfy` (module `Decimal`): `strconv.Itoa`. A reader for the numerals
  it writes serves as its proved inverse.
- `endpoints.dfy` (module `Endpoints`): the three URL builders. The status
  and restart builders each have a parser that recovers what was built,
  which shows that the concatenated URL string loses nothing.
- `watchdog.dfy` (module `Watchdog`): one connector's share of a cycle
  (`handleKafkaConnector`), as the list of restart URLs it posts.
- `wrappers.dfy` (module `Wrappers`): `Option`.

`strings.Trim(kcUrl, "/")` (main.go:48) strips every leading and trailing
`/`, not just one. `Host.Normalize` does the same, and
`Host.NormalizeCutsTrailingSlashes` proves it for any number of slashes.

## Model

| member | source | states |
|---|---|---|
| Detector.FailedTasks | main.go:102-106 | There are never more candidates than task entries, and every candidate carries the connector name that was passed in |
| Detector.FailedTasksByRank | main.go:100-107 | The number of candidates equals the number of FAILED entries. The i-th entry, when FAILED, is the candidate at the position given by the number of FAILED entries before it. So the list holds exactly the FAILED entries, once each, in input order |
| Detector.FailedTasksMembership | main.go:102-105 | A reference is a candidate if and only if it names the connector and the id of some FAILED entry |
| Detector.FailedTasksAppend | main.go:102-106 | The candidates of concatenated task lists are the concatenation of each part's candidates, so the order is preserved and each entry is judged on its own |
| Detector.SelectRestartCandidates | main.go:100-108 | A connector not exactly "RUNNING" yields no candidates whatever its tasks say. A RUNNING one yields exactly the FAILED entries in input order. The result is never longer than the task list and always names the given connector |
| Detector.CandidateMembership | main.go:101-105 | A reference is a candidate if and only if the connector is RUNNING, the reference names that connector, and its id is the id of a FAILED entry |
| Detector.ZeroStatusSelectsNothing | main.go:98-101 | The zero status left by a body that fails to decode yields no candidates |
| Detector.SelectExamples | main.go:100-108 | Worked cases: RUNNING with tasks 0 RUNNING and 1 FAILED yields task 1 only. PAUSED with task 1 FAILED yields nothing |
| Detector.CollectRestartCandidates | main.go:100-108 | The append loop as written computes the same list as the functional detector |
| Detector.GetToRestartKCTasks | main.go:86-112 | A failed GET or body read yields no candidates, and so does an undecodable body. A decoded body yields the detector's candidates for that status. Every candidate names the connector |
| Host.TrimLeftSlashes | main.go:48 | The result is a suffix of the input, everything removed is '/', and the result does not start with '/' |
| Host.TrimRightSlashes | main.go:48 | The result is a prefix of the input, everything removed is '/', and the result does not end with '/' |
| Host.TrimSlashes | main.go:48 | The result neither starts nor ends with '/'. It is the left-trimmed input with only a trailing run of '/' removed; on input that does not start with '/', it is the input with only a trailing run of '/' removed |
| Host.AddScheme | main.go:44-46 | The result begins with "http". It equals the input exactly when the input already began with "http"; otherwise it is exactly "http://" followed by the input |
| Host.Normalize | main.go:43-49 | The result begins with "http" and never ends with '/'. It is the scheme-prefixed host with only trailing '/' removed, and it is unchanged when there was no trailing '/' |
| Host.NormalizeIdempotent | main.go:43-49 | Normalising a normalised host changes nothing |
| Host.NormalizeKeepsCleanHosts | main.go:44-49 | A non-empty host without a trailing '/' is kept as is when it begins with "http", and otherwise gains exactly "http://" |
| Host.SchemeTestIgnoresSlashes | main.go:44 | Trailing '/' never change whether a host counts as beginning with "http" |
| Host.NormalizeCutsTrailingSlashes | main.go:43-49 | However many '/' trail a host, all of them are cut: the result is the scheme step applied to the host without them |
| Host.NormalizeExamples | main.go:43-49 | "myhost:8083/" and "myhost:8083//" both become "http://myhost:8083": every trailing '/' goes, not one |
| Host.NormalizeEmptyHost | main.go:43-49 | An empty host becomes "http:", because the '/' characters of the added scheme are trimmed too |
| Host.AddSchemeMissesHttpHostnames | main.go:44-46 | As written, the host "httpbin:8083" gets no scheme and begins with neither "http://" nor "https://" |
| Host.AddSchemeStrict | main.go:44-46 | Corrected scheme step: the result always begins with "http://" or "https://", and it equals the input exactly when the input already did; otherwise it is exactly "http://" followed by the input |
| Host.AddSchemeStrictAgrees | main.go:44-46 | The corrected step is idempotent. It agrees with the written one except on hosts that begin with "http" but have no scheme |
| Decimal.NatToDecimal | main.go:80 | A non-negative id renders as a non-empty run of digits with no leading zero, and it starts with '0' exactly when it is 0 |
| Decimal.Itoa | main.go:80 | The rendered id is canonical, begins with '-' exactly when negative, and contains no '/' |
| Decimal.ItoaRoundTrip | main.go:80 | Reading back the rendered id gives the original integer |
| Decimal.ItoaInjective | main.go:80 | Two ids render the same if and only if they are equal |
| Decimal.CanonicalRoundTrip | main.go:80 | Every numeral in canonical form is what the renderer writes for its value |
| Endpoints.ConnectorsUrl | main.go:115 | The list URL is exactly the base followed by "/connectors" (prefix, suffix and length together leave no overlap) |
| Endpoints.StatusUrl | main.go:87 | The status URL is exactly the list URL, "/", then the connector name and "/status" |
| Endpoints.RestartUrl | main.go:80 | The restart URL is exactly the list URL, "/", the connector name and "/tasks/", then the decimal id and "/restart" |
| Endpoints.StatusUrlRoundTrip | main.go:87 | The connector name can be recovered from its status URL string |
| Endpoints.RestartUrlRoundTrip | main.go:80 | The task, both connector and id, can be recovered from its restart URL string whatever characters the connector name holds |
| Endpoints.UrlsDistinguish | main.go:80-87 | Different tasks get different restart URLs, and different connectors get different status URLs. No status URL is a restart URL |
| Watchdog.RestartUrls | main.go:73-75 | One restart URL per task, in order: the k-th URL is the restart URL of the k-th task |
| Watchdog.RestartUrlsParseBack | main.go:73-75 | Each of those URLs reads back as the task it was built from |
| Watchdog.RestartRequests | main.go:70-77 | The URLs posted for a connector are, one to one and in order, the restart URLs of its candidates, and each reads back as its candidate |
| Watchdog.RestartRequestsTargetFailedTasks | main.go:70-77 | Every restart posted for a connector follows a decoded body of a RUNNING status. It names that connector and the id of one of its FAILED entries |

## Left out

- HTTP requests (`http.Get`, `http.Post`) and `ioutil.ReadAll`: network I/O. Their outcome is the `StatusReply` input. The response of the restart POST is not inspected by the program and is not modelled.
- JSON decoding (`json.Unmarshal`, `getConnectorsFromAPIResponse`, main.go:64-68): a foreign library. The decoded value is taken as given. On a type mismatch `json.Unmarshal` skips the mismatched field, decodes the rest and returns an error that the program ignores; the result is still some status, so the model covers it. A syntax error leaves the zero status (`Body(None)`).
- `getConnectorsList` (main.go:114-128) beyond its URL: the GET and the read are I/O. `os.Exit(1)` on a read failure (main.go:124) is process plumbing.
- The poll loop of `main` (main.go:51-61), the goroutines of `handleKafkaConnector` and `restartKCTask`, and `time.Sleep`: fire-and-forget concurrency and timing. `Watchdog.RestartRequests` lists the restarts of one connector in candidate order, but the program posts them concurrently in no fixed order.
- URL parsing inside `http.Get` and `http.Post` (main.go:83, 88, 116): the model stops at the URL string. The program does not escape connector names, so a name holding '#' or '?' is cut at that character when the client parses the URL, and a '%' not followed by two hex digits makes the request fail. Such names are not requested as written, and the round-trip lemmas speak only of the string.
- The width of Go's `int`: ids are taken as 64-bit (`Status.Int64`). On a 32-bit platform the decoder would reject larger ids; the rendering and parsing lemmas hold for any integer.
- Flag parsing, its defaults, and all `fmt`/`log` output (main.go:37-41, 71, 81-82): process plumbing with no effect on the computed values.

## Findings

| source | as written | input that shows it | evidently intended | confidence | as-written member | corrected member |
|---|---|---|---|---|---|---|
| main.go:44-46 | `strings.HasPrefix(kcUrl, "http")` treats any host whose name begins with the letters "http" as already carrying a scheme | `--host httpbin:8083` stays `httpbin:8083`, so the requested URLs have no `http://` scheme | prepend "http://" unless the host begins with "http://" or "https://" | medium, not executed | Host.AddSchemeMissesHttpHostnames | Host.AddSchemeStrict |

`Host.Normalize` keeps the scheme test as written so that it models the
program as it behaves. `Host.AddSchemeStrictAgrees` shows that the corrected
step changes the result only for the hosts the finding describes.
