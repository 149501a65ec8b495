# Cloudflare IP updater — a Dafny model of its decision logic

The updater is a dynamic-DNS client. At once, and then every two minutes, it
looks up the machine's public IPv4 address. When that address differs from the last one it
applied (`previousIP`, a package-level variable guarded by the mutex
`ipLock`), it lists the zone's DNS records whose comment contains the
configured filter, then patches each of them, one after the other, so that
it points at the new address. It stops at the first record whose update fails.
At startup it refuses to run unless the three flags `-zone_identifier`,
`-filter` and `-auth_key` are all set.

This project models that logic with every network exchange replaced by its
outcome, which the caller supplies:

- `wrappers.dfy` — `Option`, standing for a Go `error` (`None` is nil).
- `gotext.dfy` — `strings.Join` and what `%v` prints for a `[]string`.
- `cloudflare.dfy` (module `Cloudflare`, from `services/cloudflare.go`) —
  these parts:
  - the record and service values;
  - the listing and record URLs, with functions that read the filter and the
    record identifier back out of them;
  - `GetDnsRecords` as a function of its exchange's outcome;
  - the per-record request and its success check (`UpdateRequest`, `UpdateError`);
  - `UpdateDnsRecord` as a method with a loop, proved against the
    specification function `UpdateAll`.
- `updater.dfy` (module `Updater`, from `main.go`) — these parts:
  - `checkRequiredFlags`, modelled as a method that builds the list of missing
    flags by successive appends and is proved against a filter over the table
    of required flags;
  - the start of `main`, and `main` as a whole once the flags are parsed
    (`RunProgram`: the flag check, then the polling loop over the service built
    from those flags);
  - the class `Updater`, which holds the flag values, `previousIP` and the
    mutex (a `lockHeld` flag);
  - the tick body `Tick`, proved against the function `Step`;
  - `Run`, a sequence of ticks.
- `updater_properties.dfy` (module `UpdaterProperties`) — lemmas about ticks
  and runs of ticks, plus worked scenarios.

The network oracle of a tick (`Updater.Network`) has three parts: the
address-lookup outcome, the listing exchange's outcome, and `respond(j)`, the
outcome of the update of the j-th listed record. Each exchange outcome says at
which stage it failed (building the request, the transport, reading the body,
decoding the JSON) or gives the decoded envelope. The error values are the
texts Go's `fmt.Errorf` produces. The requests a tick and a run record are the
provider requests handed to the HTTP client (`http.DefaultClient.Do`); the
address lookup's own request is not among them. A request that could not be
built, or whose payload could not be marshalled, is not recorded.

One expectation about the loop does not hold for the code: that a failed
listing or update releases the lock, so that the next tick retries the same
change. The code returns before `ipLock.Unlock()` on both failure paths
(main.go:58-67), so the lock stays held. The model follows the code: `Step` and
`Tick` keep `lockHeld` true after such a failure, and a later tick that reaches
`Lock` ends as `Blocked`. The releasing behaviour is modelled separately, as
`ReleasingStep` and `TickReleasing` (see Findings).

## Model

| member | source | states |
|---|---|---|
| `Cloudflare.NewCloudflareService` | services/cloudflare.go:153-159 | the zone identifier, auth key and filter are stored unchanged, each in its own field |
| `GoText.Join` | main.go:93 | no contract; `strings.Join`: the parts in order, with the separator between neighbours only; used for the missing-flags message |
| `GoText.FormatSlice` | services/cloudflare.go:146 | no contract; what `%v` prints for a `[]string`: the elements separated by single spaces, in brackets; used for the `API request failed` message |
| `Cloudflare.ListRecordsUrl` | services/cloudflare.go:64 | no contract; the listing URL, zone then filter as the `comment.contains` argument; its properties are proved in `ListRecordsUrlRoundTrip` |
| `Cloudflare.RecordUrl` | services/cloudflare.go:110 | no contract; the URL of a record's PATCH, zone then record identifier; its properties are proved in `RecordUrlRoundTrip` |
| `Cloudflare.ListRequest` | services/cloudflare.go:64-66 | no contract; the listing request, a GET of `ListRecordsUrl` without a body; `GetDnsRecords` states when it is sent |
| `Cloudflare.ListRecordsUrlRoundTrip` | services/cloudflare.go:64 | the filter can be read back unchanged from the listing URL, and the listing URL is never read as a record URL of the zone |
| `Cloudflare.RecordUrlRoundTrip` | services/cloudflare.go:110 | the record identifier can be read back unchanged from `.../zones/<zone>/dns_records/<id>` |
| `Cloudflare.GetDnsRecords` | services/cloudflare.go:63-97 | no error exactly when the envelope decoded; then the result is the envelope's `result`; every failure path returns an empty list and the stage's error text; the listing GET reaches the HTTP client exactly when its request could be built |
| `Cloudflare.GetDnsRecordsIgnoresSuccess` | services/cloudflare.go:90-96 | two envelopes with the same `result` give the same listing and no error, whatever their `success`, `errors` and `messages` fields say |
| `Cloudflare.UpdateRequest` | services/cloudflare.go:110-118 | the per-record request is a PATCH whose URL names that record under the service's zone, and whose body content is the new address |
| `Cloudflare.UpdateError` | services/cloudflare.go:111-150 | nil exactly when the response decoded and says `success`; a decoded `success == false` is the error `API request failed: [errors]`; every other failure gives the error text of its stage |
| `Cloudflare.UpdateRequests` | services/cloudflare.go:100-101 | one request per record, and the i-th request is the one for the i-th record |
| `Cloudflare.FirstFailure` | services/cloudflare.go:100-104 | the index returned is a failing update, or the end of the list, and every update before it succeeds |
| `Cloudflare.UpdateAll` | services/cloudflare.go:99-150 | nil exactly when every per-record update is nil, and then one PATCH per record was sent, in slice order; otherwise the error is that of the first failing record, every record before it was patched, in order, and the failing record's PATCH was sent unless its payload or its request could not be built |
| `Cloudflare.UpdateAllEmpty` | services/cloudflare.go:99-107 | an empty record list returns nil and makes no request |
| `Cloudflare.UpdateDnsRecord` | services/cloudflare.go:99-150 | the loop's error and the requests it sends are exactly what the specification `UpdateAll` gives (see `UpdateAll` for what that means) |
| `Updater.MissingFlagsExact` | main.go:80-90 | a flag is listed exactly when its value is empty; no flag is listed exactly when all three are set; no name repeats; the names keep the order `-zone_identifier`, `-filter`, `-auth_key` |
| `Updater.Updater.CheckRequiredFlags` | main.go:79-97 | nil exactly when all three flags are non-empty; otherwise the text is `missing or empty required flags: ` followed by the missing names, in order, joined with `, ` |
| `Updater.Updater.Startup` | main.go:29-36 | with a flag missing, there is the flag-check error and no service; otherwise the service holds the three flag values |
| `Updater.Updater.RunProgram` | main.go:29-73 | with a flag missing, the flag-check error is returned, no tick runs, the state is unchanged and no request is made; otherwise the outcomes, requests and final state are those of `Run` over the service built from the three flags |
| `Updater.Updater.constructor` | main.go:12-27 | the flag values are stored, `previousIP` starts empty and the lock starts free |
| `Updater.Step` | main.go:43-72 | no contract; the as-written tick: lookup, `Lock`, compare, then `Cycle`, with both failure paths returning before `Unlock`; the reference for `Tick`; its properties are proved in `UpdaterProperties` |
| `Updater.Cycle` | main.go:54-69 | no contract; the part of a tick that runs with the lock held once the address changed: listing, updates, and storing the address only when both succeed; part of `Step` |
| `Updater.ReleasingStep` | main.go:53-71 | no contract; the corrected tick, `Step` with the lock released on both failure paths; the reference for `TickReleasing`; its properties are proved in `UpdaterProperties` |
| `Updater.Run` | main.go:42-73 | no contract; ticks run one after the other, each finishing before the next, as-written or releasing; the reference for `Poll` and `RunProgram`; its properties are proved in `UpdaterProperties` |
| `Updater.Updater.Tick` | main.go:43-72 | the new `previousIP`, the lock, the outcome and the requests sent are those of `Step`, applied to the state before the tick |
| `Updater.Updater.TickReleasing` | main.go:53-71 | the same tick with the lock released on every path after `Lock`; the new state is that of `ReleasingStep` |
| `Updater.Updater.Poll` | main.go:42-73 | ticks run one after the other; the final state, outcomes and requests are those of `Run` |
| `UpdaterProperties.LookupFailureTouchesNothing` | main.go:46-50 | a failed lookup leaves `previousIP` and the lock as they were, and makes no provider call |
| `UpdaterProperties.SameAddressIssuesNoCalls` | main.go:53-54 | an unchanged address makes no listing or update call, and leaves `previousIP` and the free lock as they were |
| `UpdaterProperties.InitialEmptyAddressIsUnchanged` | main.go:16 | in the initial state, an empty lookup result is a no-op tick |
| `UpdaterProperties.AdvancesIffCycleSucceeds` | main.go:54-69 | `previousIP` changes exactly when the address differs, the lock is free, the listing succeeds and every record update succeeds; it then becomes the looked-up address, with the lock free |
| `UpdaterProperties.FailureKeepsLock` | main.go:57-67 | after a listing or update failure, `previousIP` is unchanged and the lock stays held; the listing request was sent first, and no request was sent at all only when the listing request could not be built |
| `UpdaterProperties.SuccessReleasesLock` | main.go:63-71 | a successful changed-address tick stores the address and frees the lock; it has sent the listing and then one PATCH per listed record, in order |
| `UpdaterProperties.UnsuccessfulEmptyListingAdvances` | services/cloudflare.go:90-96 | a listing envelope with `success == false` and no records still counts as applied: the address is stored and no PATCH is sent |
| `UpdaterProperties.SecondLookupOfSameAddressIssuesNoCalls` | main.go:53-71 | the second of two ticks that see the same address makes no provider call |
| `UpdaterProperties.LeakedLockIsPermanent` | main.go:53-71 | once the lock is held, every later tick fails its lookup or blocks; `previousIP` never changes and no provider call is made again |
| `UpdaterProperties.ReleasingRunNeverBlocks` | main.go:53-71 | with the releasing tick, a run that starts with the lock free never blocks and ends with the lock free |
| `UpdaterProperties.ReleasingStepAgrees` | main.go:53-71 | the releasing tick makes the same calls, reports the same outcome and stores the same address as the program's tick; only the lock differs |
| `UpdaterProperties.ReleasingRetriesAfterFailure` | main.go:57-67 | with the releasing tick, a failed cycle is retried: the next tick that sees the same address neither blocks nor counts as unchanged, and sends the listing again whenever its request can be built |
| `UpdaterProperties.NoRetryAfterFailure` | main.go:57-67 | in the program as written, the tick after a failed cycle that sees the same address blocks and makes no call |
| `UpdaterProperties.UnbuildableListingSendsNothing` | services/cloudflare.go:66-69 | a changed address whose listing request cannot be built fails the tick with `error creating request: ...`, keeps the lock and sends nothing |
| `UpdaterProperties.UnmarshallablePatchIsNotSent` | services/cloudflare.go:111-116 | a first record whose payload cannot be marshalled stops the loop with `failed to marshal JSON payload: ...` and no PATCH is sent; the program never reaches this branch, because a body with a single string field always marshals |
| `UpdaterProperties.OneRecordAccepted` | services/cloudflare.go:99-107 | a single record whose update is accepted gives nil and exactly one PATCH |
| `UpdaterProperties.ChangeRepeatChange` | main.go:43-72 | from the initial state, `1.2.3.4` is applied, seeing `1.2.3.4` again makes no call, and `5.6.7.8` is then applied with a new listing and a PATCH carrying `5.6.7.8` |
| `UpdaterProperties.PartialApplication` | services/cloudflare.go:99-107 | with two records, the second answering `success == false`: the tick fails, `previousIP` stays and the lock stays held, yet the first record's PATCH was sent |
| `UpdaterProperties.LockLeakStallsRetry` | main.go:57-71 | a listing failure followed by a tick with the same address: as written, the second tick blocks; with the releasing tick, it lists and patches the record |

## Left out

- The public-address lookup (`services/ipfy.go`) is not part of this model.
  A tick receives its result as the input `IpLookup`: an address or an error.
- HTTP transport, header construction (`Content-Type`, `Authorization: Bearer`),
  reading and closing bodies, `json.Marshal` and `json.Unmarshal` are
  foreign library calls. Each exchange is replaced by an outcome saying at which
  stage it failed or what envelope it decoded. A request is modelled by its
  verb, URL and body value only.
- Goroutines, the two-minute `time.Ticker` and the `select {}` idle loop are
  concurrency and timing. Ticks are modelled one at a time, each finishing
  before the next begins. Overlapping goroutines are not interleaved; a tick
  that reaches `Lock` while the lock is held ends as `Blocked`. In the
  program that goroutine waits for ever, because nothing releases the lock.
- Flag parsing and `flag.PrintDefaults` are left out. The constructor of
  `Updater` receives the parsed values.
- The filter and the record identifier are put into the URLs exactly as they
  are, with no escaping, as the code does. What the provider makes of a filter
  that contains `&` or spaces is outside the model.
- All logging (`fmt.Print*`) is left out. A tick's outcome carries the error
  it would have logged.
- Pagination and the unused fields of `DnsRecord` and of the response envelopes
  (`services/cloudflare.go:11-45`) carry no logic. A record is its `id`, `name`
  and `content`.

## Findings

| source | as written | input that shows it | evidently intended | confidence | as-written member | corrected member |
|---|---|---|---|---|---|---|
| main.go:57-71 | the listing-failure and update-failure paths `return` before `ipLock.Unlock()`, so the mutex stays locked | tick 1 sees `1.2.3.4` and the listing request fails with a transport error; tick 2 sees `1.2.3.4` again: it blocks in `Lock` for ever, and so does every later tick, so the DNS records are never updated again | release the lock on every path (for example with a deferred `Unlock`), so that the next tick retries the same change | high (not executed) | `UpdaterProperties.LockLeakStallsRetry` | `Updater.Updater.TickReleasing` |

The as-written behaviour is `Updater.Step` and `Updater.Updater.Tick`.
`UpdaterProperties.LeakedLockIsPermanent` proves that once a failure has
left the lock held, no later tick makes progress. The corrected behaviour is
`Updater.ReleasingStep` and `Updater.Updater.TickReleasing`.
`UpdaterProperties.ReleasingRunNeverBlocks` and
`UpdaterProperties.ReleasingRetriesAfterFailure` prove what the correction
is meant to give: no tick ever blocks, and a failed change is retried on the
next tick.
