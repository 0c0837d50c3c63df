# cfcr in Dafny

cfcr keeps the ACME DNS-01 validation records of a set of domains in step
between Cloudflare, which issues the certificates, and the DNS provider (OVH),
which serves the `_acme-challenge` TXT records that prove control of each
domain (section 8.4 of RFC 8555). On every tick it walks the configured
domains. A domain with active certificate packs gets its validation records
cleaned at the provider. Any other domain gets the validation values Cloudflare
asks for, unless the provider already holds records.

This project models that decision logic and proves properties about it. It has
one module per Go source file:

- `Config` (`config.dfy`, config/config.go) has the configuration record, the
  frequency whitelist, the YAML file test, the order of the checks in
  `Validate`, and the loop of `GetConfigFiles` that joins the YAML files of a
  directory into one buffer.
- `Cloudflare` (`cloudflare.dfy`, cloudflare/cloudflare.go) shows how the
  three getters read a decoded answer: a null result, an empty result, or the
  first element. It also has the closed status vocabulary, the check of the
  revalidation answer, and the URLs and headers of every request.
- `Providers` (`providers.dfy`, providers/providers.go) has the provider
  choice and the `Provider` interface. The interface is a class whose state is
  the TXT values each domain's validation name holds, and its methods follow
  the interface's documented contracts.
- `Ovh` (`ovh.dfy`, providers/ovh/ovh.go) has the derivation of the
  `_acme-challenge` sub-domain and the conversion of record IDs to strings. It
  also has the record matching of `UpdateTXTRecords`, which maps N desired
  values onto the M record IDs OVH already has. The matching comes both as
  written and as intended (see Findings).
- `App` (`app.dfy`, app/app.go) has the reconciler `App.Run`. A ghost trace
  records every Cloudflare query, provider call and metric update. One domain's
  turn is specified by `Reconcile`, and a tick by its left fold `ReconcileAll`.
- `Cfcr` (`cfcr.dfy`, main.go) has the start-up checks, the
  frequency-to-ticker-period switch, and the older per-domain loop of `main`.
- `GoStrings` and `Wrappers` hold `strings.HasSuffix`/`HasPrefix`/`TrimSuffix`
  and the `Option`/`Result` types.

Calls to code outside the model become parameters:

- Cloudflare's answers for a tick are an `Edge` value: the decoded reply per
  zone name and per zone ID.
- OVH's behaviour is an `OvhApi` value. It says whether a client can be built,
  what the listing returns, and which writes are refused.
- `zerolog.ParseLevel` is a predicate `parseLevel`.
- A directory listing is a `DirProbe` value.
- The DNS provider's failures are a `Faults` value: the set of calls that fail,
  and the records a failed clean or create leaves, given the records before it.

Four behaviours of the code are worth stating outright, because each is easy
to assume otherwise:

- A `validation_timed_out` pack takes the same path as a pending one, and
  revalidation is never requested: `TriggerCertificatesValidation` has no
  caller in the loop (app/app.go:55-75; `App.NonActiveStatusesAgree`,
  `App.NeverRevalidates`).
- `App.Run` does not stop on zero validation records. It still checks the
  provider and creates from the empty list (app/app.go:77-100;
  `App.EmptyValidationStillChecks`). Only the older loop in main.go skips them
  (main.go:120-123).
- A null Cloudflare answer (`ErrEmptyResponse`) is handled like every other
  lookup error: it skips only the domain at hand (app/app.go:41-53;
  `App.LookupFailureSkipsDomain`).
- A dry run stops before the existence check, not only before the writes
  (app/app.go:57-60 and 82-85; `App.DryRunOnlyReads`).

## Model

| member | source | states |
|---|---|---|
| Config.IsFreqValid | config/config.go:126-134 | true exactly when the frequency is one of debug, hourly, daily, weekly, monthly |
| Config.IsYamlFile | config/config.go:137-141 | a name is a YAML file when it ends in ".yaml" or ".yml" |
| Config.FrequencyExamples | config/config_test.go:13-18 | hourly, daily, weekly and monthly are accepted; "" and "foobar" are refused |
| Config.YamlExtensionAccepted | config/config.go:137-141 | every name made of a stem and ".yaml" or ".yml" is a YAML file |
| Config.YamlFileHasExtension | config/config.go:137-141 | conversely, every YAML file name is a stem followed by ".yaml" or by ".yml" |
| Config.YamlFileExamples | config/config_test.go:69-72 | foo.yaml and foo.yml are accepted; foo.txt and "" are not |
| Config.FirstFailure | config/config.go:107-124 | the first of the three checks that fails: the log level must parse, the Cloudflare token must be set, the frequency must be whitelisted |
| Config.Validate | config/config.go:107-124 | returns the first failing check in the order log level, Cloudflare token, frequency; None exactly when all three pass |
| Config.EmptyConfigRejected | config/config_test.go:35-39 | the zero configuration is always refused, with the missing token when the empty level parses |
| Config.GetConfigFiles | config/config.go:55-96 | an open, stat or read-dir failure or a plain file is an error before any read; otherwise the result is the YAML buffer of the listing and the names read, in order |
| Config.YamlData | config/config.go:77-96 | the buffer the loop builds: each YAML file's bytes and a newline, in listing order, skipping other names; the first unreadable YAML file is the error |
| Config.ReadAttempts | config/config.go:78-88 | the names the loop hands to os.ReadFile: the YAML files, up to and including the first unreadable one |
| Config.PrefixErrorPersists | config/config.go:85-88 | the first unreadable YAML file ends the loop: later files neither change the error nor get read |
| Config.YamlDataLength | config/config.go:94-95 | when every YAML file is readable, the buffer's length is the sum of each file's length plus one |
| Config.NonYamlIgnored | config/config.go:78-83 | dropping the files that are not YAML changes neither the buffer nor the files read |
| GoStrings.TrimSuffix | providers/ovh/ovh.go:161 | with the suffix present the result followed by the suffix is the input; without it the input is unchanged |
| Cloudflare.GetZoneID | cloudflare/cloudflare.go:69-77 | succeeds exactly on a decoded non-empty result, with the first zone's ID |
| Cloudflare.GetTXTValues | cloudflare/cloudflare.go:116-124 | succeeds exactly on a decoded non-empty result, with the first pack's validation records unchanged (possibly none) |
| Cloudflare.GetCertificatePacksStatus | cloudflare/cloudflare.go:164-184 | succeeds exactly when the first pack has one of the four known statuses, returning that status and the pack's ID; any other status is an UnknownStatus error |
| Cloudflare.ClassifyStatus | cloudflare/cloudflare.go:172-184 | Ok exactly for the four known statuses, with that status and the pack's ID; any other status is UnknownStatus with that status |
| Cloudflare.GettersShareShapeRule | cloudflare/cloudflare.go:164-170 | on answers of the same shape the three getters fail alike: null gives EmptyResponse, an empty array NoResult |
| Cloudflare.KnownStatusReported | cloudflare/cloudflare.go:172-180 | a known status of the first pack is reported as is, with the pack's ID |
| Cloudflare.TriggerCertificatesValidation | cloudflare/cloudflare.go:227-235 | no error exactly when the answer reports success and status initializing; success false is a refusal whatever the status |
| Cloudflare.Headers | cloudflare/cloudflare.go:47-50 | the two headers every request carries: Authorization "Bearer " + token and Content-Type application/json |
| Cloudflare.ZoneIdRequest | cloudflare/cloudflare.go:41-50 | GET on the zones collection filtered by ?name= and the domain, with the common headers |
| Cloudflare.TxtValuesRequest | cloudflare/cloudflare.go:88-97 | GET on the zone's certificate_packs?status=all, with the common headers |
| Cloudflare.PacksStatusRequest | cloudflare/cloudflare.go:136-145 | GET on the zone's certificate_packs?status=all, the same request as the TXT query |
| Cloudflare.RevalidationRequest | cloudflare/cloudflare.go:199-208 | PATCH on the zone's certificate_packs/ + pack ID, with the common headers |
| Cloudflare.RequestsCarryToken | cloudflare/cloudflare.go:47-50 | the Authorization header of all four requests reads back as the bearer token configured |
| Cloudflare.RequestUrls | cloudflare/cloudflare.go:199 | status and TXT queries are the same GET on certificate_packs?status=all; the PATCH URL is that collection, "/" and the pack ID, and differs from the query |
| Providers.ProviderToUse | providers/providers.go:32-37 | "ovh" exactly when the three OVH credentials are non-empty, "none" otherwise; always an element of List |
| Providers.Provider.CleanTXTRecords | providers/providers.go:24-26 | on success the domain's validation name holds no TXT record; a failure leaves whatever records the provider's `Faults` say it left, since the interface promises nothing then |
| Providers.Provider.CheckIfRecordsAlreadyExist | providers/providers.go:27-29 | true exactly when the call succeeds and the domain already has TXT records |
| Providers.Provider.CreateTXTRecords | providers/providers.go:21-23 | on success the domain holds exactly the given TXT values; a failure leaves whatever records the provider's `Faults` say it left (a partial write included) |
| Ovh.GetCorrectSubdomain | providers/ovh/ovh.go:152-164 | the bare `_acme-challenge` for the base domain itself; otherwise `_acme-challenge.` + the domain with a trailing "." + base domain cut off |
| Ovh.SubdomainOfBase | providers/ovh/ovh.go:159-160 | the base domain itself validates at the bare `_acme-challenge` |
| Ovh.SubdomainOfLabel | providers/ovh/ovh.go:161 | l.bd validates at `_acme-challenge.l`, for any l, dots included |
| Ovh.SuffixThroughLabel | providers/ovh/ovh.go:161 | the prefixed name ends in "." + bd only when the domain does or is bd |
| Ovh.SubdomainOutsideBase | providers/ovh/ovh.go:160-161 | a domain outside the base domain is kept whole behind the label |
| Ovh.SubdomainStartsWithLabel | providers/ovh/ovh.go:152-164 | the derived sub-domain always starts with `_acme-challenge` |
| Ovh.SubdomainExamples | providers/ovh/ovh_test.go:11-28 | foobar.com, api.foobar.com and www.staging.foobar.com give the expected sub-domains |
| Ovh.Itoa | providers/ovh/ovh.go:53 | strconv.Itoa: a minus sign for negatives, then the decimal digits, most significant first |
| Ovh.DecimalRoundTrip | providers/ovh/ovh.go:53 | the decimal digits of a natural number read back as that number |
| Ovh.DecimalDigits | providers/ovh/ovh.go:53 | the decimal form of a natural number has only the digits 0-9, and a leading zero only for zero itself |
| Ovh.ItoaRoundTrip | providers/ovh/ovh.go:53 | strconv.Itoa loses nothing: its string reads back as the same integer |
| Ovh.ItoaInjective | providers/ovh/ovh.go:53 | distinct record IDs give distinct strings |
| Ovh.GetDomainIDs | providers/ovh/ovh.go:27-56 | client failure, listing failure and an empty list are errors; otherwise one decimal string per ID, same order; the listing is sent only with a client |
| Ovh.IdStringsDistinct | providers/ovh/ovh.go:51-54 | IDs listed once each stay pairwise distinct as strings |
| Ovh.FirstRefused | providers/ovh/ovh.go:102-104 | every write before the index is accepted and the write at the index, if any, is refused |
| Ovh.RefusalStops | providers/ovh/ovh.go:102-104 | a refused write is the last request sent and its error is the result |
| Ovh.Perform | providers/ovh/ovh.go:94-147 | the writes are sent in order; the first refused one is the last sent and its error the outcome; with none refused, the panic index if the plan overruns, else success |
| Ovh.PositionalUpdates | providers/ovh/ovh.go:94-105 | PUT of value i on ids[i] for the first n values, each to the derived sub-domain with TTL 120 |
| Ovh.Creations | providers/ovh/ovh.go:119-132 | one POST of a TXT record per value, in order, to the derived sub-domain with TTL 120 |
| Ovh.OverrunUpdates | providers/ovh/ovh.go:136-147 | as written: PUT of value i on ids[i] for i from N - M while i is below M |
| Ovh.IntendedWrites | providers/ovh/ovh.go:92-147 | the plan the comments describe: N ≤ M updates ids[0..N) in order; N > M creates the first N - M values and puts the rest on ids[0..M) in order |
| Ovh.AsWrittenWrites | providers/ovh/ovh.go:92-147 | the plan the code issues, with the index it panics at: the same for N ≤ M; for N > M the creations, then the overrunning PUTs and a panic at max(N - M, M) |
| Ovh.PerformStopsInPrefix | providers/ovh/ovh.go:129-131 | a refused creation ends the update before any PUT |
| Ovh.PerformContinues | providers/ovh/ovh.go:133-136 | once every creation is accepted the updates decide the outcome |
| Ovh.UpdateExisting | providers/ovh/ovh.go:92-106 | N ≤ M: PUTs value i on ID i in order, stopping at the first refusal |
| Ovh.CreateRecords | providers/ovh/ovh.go:117-132 | POSTs one TXT record per value in order, stopping at the first refusal |
| Ovh.UpdateOverrun | providers/ovh/ovh.go:136-147 | as written: PUTs value i on ids[i] from i = N - M while i < M, then panics at index max(N - M, M) if M ≥ 1 |
| Ovh.OverrunUpdateAt | providers/ovh/ovh.go:142 | the loop as written sends value i to ids[i], not to the ID the comment at line 135 intends |
| Ovh.CreateThenUpdateAsWritten | providers/ovh/ovh.go:109-148 | N > M as written: the creations of the first N - M values, then the overrunning update loop |
| Ovh.CreateThenUpdate | providers/ovh/ovh.go:109-148 | N > M as intended: the creations, then the M remaining values PUT on the M IDs |
| Ovh.UpdateTXTRecords | providers/ovh/ovh.go:58-150 | the requests and outcome of the code as written: listing, then the branch the counts select |
| Ovh.UpdateTXTRecordsIntended | providers/ovh/ovh.go:58-150 | the same with the update loop reading ids[i - (N - M)] |
| Ovh.Update | providers/ovh/ovh.go:58-150 | UpdateTXTRecords end to end: a client error sends nothing; a listing error or no IDs sends only the listing; otherwise the listing followed by the plan, sent through Perform |
| Ovh.IntendedWritesEveryValue | providers/ovh/ovh.go:92-147 | as intended, one write per value, the i-th carrying value i, all to the derived sub-domain with TTL 120 |
| Ovh.IntendedWritesLayout | providers/ovh/ovh.go:109-147 | as intended, max(N - M, 0) POSTs come first, then PUTs on ids[0], ids[1], … in order |
| Ovh.SurplusIdsUntouched | providers/ovh/ovh.go:92-106 | with N ≤ M and distinct IDs, ids[N..M) are never written |
| Ovh.IntendedCreatesMissing | providers/ovh/ovh.go:117-132 | as intended, exactly max(N - M, 0) records are created, so M plus the created ones cover every value |
| Ovh.SecondRunCreatesNothing | providers/ovh/ovh.go:92-109 | given an ID list as long as a completed first run leaves (M plus the records it planned to create), the intended plan creates nothing |
| Ovh.EnoughIdsAsIntended | providers/ovh/ovh.go:92-106 | with N ≤ M the code as written is the intended algorithm |
| Ovh.NoWriteWithoutIds | providers/ovh/ovh.go:61-64 | a client, listing or empty-list error returns before any write |
| Ovh.OverrunPanics | providers/ovh/ovh.go:136-142 | with N > M ≥ 1 and every write accepted, the code as written panics at index max(N - M, M) while the intended variant completes |
| Ovh.OverrunSkipsValues | providers/ovh/ovh.go:136-142 | as written with N ≥ 2M no PUT is sent at all: only the first N - M values reach OVH |
| Ovh.FewerValuesExample | providers/ovh/ovh.go:92-106 | two values and three IDs: the first two records are overwritten in order, the third kept |
| Ovh.MoreValuesExample | providers/ovh/ovh.go:117-147 | three values and one ID: intended [POST a, POST b, PUT c]; as written the two POSTs, then a panic reading ids[2] of 1 |
| App.ProjectTxtValues | app/app.go:77-80 | one TXT value per validation record, same length and order |
| App.TxtValueOf | app/app.go:77-80 | the TxtValue of each validation record, in order |
| App.Publish | app/app.go:87-108 | the provider's part of a turn: the check; a create when it succeeded and found nothing, leaving the records a failed create left; the metric when the create succeeded and metrics are on |
| App.Reconcile | app/app.go:38-110 | one domain's turn, branch for branch: zone lookup, status lookup, cleanup when active (none in dry run), else TXT lookup and, outside dry run, Publish; any failure ends the turn |
| App.ReconcileAll | app/app.go:37-111 | the configured domains in order, each turn starting from the records the previous one left, calls appended |
| App.App.ReconcileDomain | app/app.go:38-110 | one domain's turn: records and calls afterwards are those Reconcile gives |
| App.App.PublishDomain | app/app.go:87-108 | the provider's part of a turn: check, then create only when the check succeeded and found nothing, then the metric when enabled; records and calls afterwards are those Publish gives |
| App.App.Run | app/app.go:33-114 | always returns nil; records and calls afterwards are the left fold of Reconcile over the configured domains |
| App.ReconcileAllConcat | app/app.go:37 | a tick over two lists of domains is the tick over the first followed by the tick over the second |
| App.OneZoneQueryPerDomain | app/app.go:40-45 | each turn starts with its zone lookup and makes no other |
| App.EveryDomainVisitedInOrder | app/app.go:37-45 | the names looked up during a tick are exactly the configured domains, each once, in order |
| App.LookupFailureSkipsDomain | app/app.go:41-53 | a failed zone or status lookup records only the lookups made and changes no record; later domains are handled as if the domain were absent |
| App.PublishCreatesOnce | app/app.go:89-103 | the provider's part starts with the check; a create can only be its second call, after a successful check that found no records |
| App.ActiveOnlyCleans | app/app.go:55-66 | with active packs the only provider call is the cleanup (none in dry run), no TXT query is made; a successful cleanup empties the domain's records and a failed one leaves what the provider left |
| App.NonActiveStatusesAgree | app/app.go:67-75 | pending_validation, initializing and validation_timed_out lead to the same turn |
| App.NeverRevalidates | app/app.go:33-114 | no tick asks Cloudflare to revalidate a certificate pack |
| App.DryRunOnlyReads | app/app.go:57-85 | a dry run makes no provider call and no metric update and leaves every record as it was |
| App.CreateFollowsNegativeCheck | app/app.go:89-103 | records are created at most once per turn, right after a successful existence check that found none |
| App.EmptyValidationStillChecks | app/app.go:77-100 | zero validation records still lead to the check and, without existing records, to a create with the empty list |
| App.PartialCreateBlocksRetry | app/app.go:89-103 | a create that fails after writing some records is never retried: the next turn's check finds those records, so the turn ends there with the partial records still in place |
| App.MetricOnlyAfterCreate | app/app.go:100-108 | the last-updated metric is set exactly when metrics are on and the create succeeded; the provider then holds those values |
| Cfcr.TickerAcceptsValidFrequencies | main.go:59-73 | the switch has a period exactly for the whitelisted frequencies, so a validated configuration never hits the fatal default; periods grow along the whitelist |
| Cfcr.TickerPeriod | main.go:59-73 | the ticker period in minutes of debug, hourly, daily, weekly and monthly; None, the fatal default, otherwise |
| Cfcr.TickerPeriodValues | main.go:60-69 | periods of 1 minute, 1 hour, 24 hours, 168 hours and 720 hours; others fatal |
| Cfcr.Start | main.go:40-73 | start-up succeeds exactly when Validate finds no failure, with the ticker period of the frequency and the domain gauge when metrics are on |
| Cfcr.LegacyOvhDomain | main.go:125-149 | the OVH half of a turn: sub-domain derived inline equal to getCorrectSubdomain, the listing, then the update lines, a panic or the metric, as LegacyOvh gives |
| Cfcr.LogUpdates | main.go:140-145 | pairs value i with ids[i] in order; panics at index len(ids) when there are more values than IDs |
| Cfcr.UpdateLines | main.go:140-145 | one log line per value, naming the derived sub-domain, ids[i] and value i |
| Cfcr.LegacyOvh | main.go:125-149 | the OVH half: nothing without a client; the listing; on a listing error or no IDs nothing more; else the update lines and a panic at len(ids) when values outnumber IDs, or the metric when enabled |
| Cfcr.LegacyTurn | main.go:99-149 | one domain's turn: zone lookup, TXT lookup, a skip on a failure or zero records, then LegacyOvh |
| Cfcr.LegacyTick | main.go:98-150 | LegacyTurn for each configured domain in order, until a turn panics |
| Cfcr.LegacyDomain | main.go:99-149 | one domain's turn, as LegacyTurn gives: zone and TXT lookups, a skip on a failure or zero records, then the OVH half |
| Cfcr.LegacyRun | main.go:98-150 | the domains in order until a panic ends the process |
| Cfcr.LegacySkipsBeforeOvh | main.go:102-123 | a failed lookup or zero validation records skips the domain before any OVH request |
| Cfcr.LegacyPanicsOnTooFewIds | main.go:140-141 | the loop panics exactly when OVH lists fewer IDs than there are values, at index len(ids) |
| Cfcr.LegacyMetricOnlyWhenEnabled | main.go:146-148 | the metric is set only with metrics enabled and only when the turn did not panic; with metrics enabled every domain whose values all found an ID sets it |
| Cfcr.LegacyPanicEndsTick | main.go:140-141 | after a panic no later domain is looked at |
| Cfcr.LegacyTickConcat | main.go:98 | without a panic, later domains are handled as they would be on their own |

## Left out

- HTTP transport, `io.ReadAll` and `json.Unmarshal` in cloudflare/cloudflare.go: a failure of any of them is the single error `Transport`, and decoded bodies are datatypes.
- The go-ovh client (`ovh.NewClient`, `Get`, `Put`, `Post`): requests are values returned in order. One `clientOk` flag stands for both `NewClient` calls of `UpdateTXTRecords`.
- HTTP headers are an ordered list of pairs rather than Go's `http.Header` map. The header lookup reads the first `Authorization` entry.
- All zerolog logging, `zerolog.SetGlobalLevel` (a global side effect), and the `t time.Time` parameter of `App.Run`, which is only logged. `zerolog.ParseLevel` is an opaque predicate.
- The filesystem calls and the YAML unmarshal of `GetConfigFiles`: the model stops at the buffer handed to `yaml.Unmarshal`.
- metrics/metrics.go: the Prometheus gauges hold `float64` values and timestamps, so a metric update is a trace event with no value. The gauge of watched domains is the count it would be set to.
- In main.go: the signal/ticker `select` loop, `time.Ticker`, `os.Exit`, flag parsing and the metrics server goroutine. One tick is one call of `Cfcr.LegacyRun`.
- ovh/ovh.go is not part of this model except for the ID listing the legacy loop calls. That listing's logic (empty-list error, `strconv.Itoa`) is the same as `getDomainIDs` and reuses `Ovh.GetDomainIDs`. The `BASE_DOMAIN` environment variable it reads is a parameter.
- Providers.Provider: the class states the interface's documented contract. A failed `CleanTXTRecords` or `CreateTXTRecords` leaves records that depend only on the call and the records held before it (`Faults.leftOnFailure`). `OVHProvider` in providers/ovh/ovh.go only has `UpdateTXTRecords`, not the three interface methods, and its partial writes are modelled in `Ovh` instead.
- Config.GetConfigFiles: `ioutil.ReadDir` (config/config.go:71) returns the entries sorted by file name. `DirProbe.Listing` accepts any order, so the model covers more listings than the source produces.
- Cloudflare.GetCertificatePacksStatus: line 169 returns two values from a three-result function. It is taken as `("", "", ErrNoResult)`.
- App.App.ReconcileDomain: app/app.go:49 takes two results from the three-result `GetCertificatePacksStatus`. It is taken as `(status, _, err)`, so the pack ID is not used.
- Cloudflare.TriggerCertificatesValidation: line 217 calls `ioutil.ReadAll` without importing `ioutil`. It is taken as `io.ReadAll`, and a failure is `Transport`.
- Cfcr.LegacyDomain: main.go:86-89 reads Cloudflare credential fields the configuration does not have, and main.go:36 calls a `config.ParseConfig` that does not exist. The Cloudflare answers are taken as given (`Edge`), and start-up begins at `Validate`.
- Config.EmptyConfigRejected: config/config_test.go sets a `LogLevel` field the configuration does not have. The "wrong log level" case is stated through `parseLevel`, not as a test value.
- App.App.Run: Go's nil `txtvalues` slice for zero records is the empty sequence.

## Findings

| source | as written | input that shows it | evidently intended | confidence | as-written member | corrected member |
|---|---|---|---|---|---|---|
| providers/ovh/ovh.go:136-142 | with more TXT values (N) than record IDs (M), the update loop runs i from N - M to N and sends value i to `ids[i]`, reading past the end of `ids` once i reaches M | values ["a", "b", "c"], IDs [7]: after the POSTs of "a" and "b" the loop reads `ids[2]` of a list of length 1 | the M existing records take the last M values, `ids[i - (N - M)]`, as the comment at line 135 says | high (not executed) | Ovh.OverrunPanics | Ovh.UpdateTXTRecordsIntended |
