# s3-prober: the probe sequencer, modelled in Dafny

s3-prober is a Prometheus exporter. For every scrape of `/probe`, `Exporter.Collect` runs
a fixed sequence of storage steps against one bucket on one S3 endpoint:

- connect
- listbuckets
- makebucket
- put
- get
- stat
- remove
- removebucket

It reports through two gauges, `probe_success` and `probe_duration_seconds`, each labelled
with the operation name and the endpoint. What a run emits depends on where it stops:

- A failed client construction emits one `probe_success` gauge of 0 for connect, and nothing
  else.
- Every step that is called emits a `probe_success` gauge (1 or 0) and a
  `probe_duration_seconds` gauge with its measured time.
- A step that is given up on emits a "sentinel": a success of 0 and the configured operation
  timeout as its duration. After a failed listing, every later step gets a sentinel
  (makebucket and removebucket only without the skip flag). After a failed put, get, stat and
  remove get sentinels.
- A failed makebucket ends the run with no sentinels.
- With the skip flag, removebucket emits nothing. Makebucket emits something only when it is
  called, which happens when the listing succeeds and does not contain the bucket.

This project models that sequencer and the start-up check of the required flags:

- `wrappers.dfy`: `Option` and `Result`.
- `prober.dfy` (module `Prober`):
  - The data: operations, samples, the exporter's configuration, and the storage answers.
  - The storage client is the class `Client`. It answers every call from a fixed `Storage`
    oracle and keeps the sequence of calls it received.
  - The metric channel is the class `Channel`, whose `sent` sequence `Collect` appends to.
  - `Collect`, `Measure` and the bucket scan are imperative methods.
  - Each method is proved against a specification function. A run is described as a
    `Plan` (a list of steps). `Trace(e, s)` is the samples of that plan, and `Invoked(e, s)`
    is its storage calls.
- `properties.dfy` (module `ProbeProperties`): what the code promises about every run, proved
  about `Trace` and `Invoked`. This covers:
  - the connect and listing failures;
  - when buckets are created and removed;
  - what depends on put's outcome;
  - the skip flag;
  - the order of the calls;
  - the uniqueness of the emitted series.
- `startup.dfy` (module `Startup`): the required-flag checks of `startDaemon` as a pure
  function that returns the exporter or the error message.

Two properties one would expect of a probe sequencer do not hold of the code. The model follows the code:

- One would expect no step to be reported out of order. After a failed listing without the
  skip flag, the code reports the removebucket sentinel before put's sentinel, and
  `ListFailureOrder` proves that order.
- One would expect no step to be reported more than once. In the same case the code emits
  two makebucket duration samples (see Findings).

## Model

| member | source | states |
|---|---|---|
| Prober.Collect | s3-prober.go:73-228 | One run appends exactly `Trace(e, s)` to the channel, in one block. It returns the storage calls it made, which are `Invoked(e, s)`. |
| Prober.Measure | s3-prober.go:230-246 | Makes the call once and returns its error unchanged. Then emits the success sample (1 exactly when there is no error) and the measured duration, both labelled with the given operation. |
| Prober.SuccessValue | s3-prober.go:231-235 | The success gauge is 1 exactly when the call returned no error, and 0 exactly when it returned one. |
| Prober.ScanBuckets | s3-prober.go:158-163 | True exactly when some listed bucket has the configured name (`Found`). |
| Prober.SendSentinel | s3-prober.go:200-219 | A step that is not attempted emits success 0, then the operation timeout as its duration. |
| Prober.SendListFailureSentinels | s3-prober.go:112-156 | After a failed listing, the sentinels are emitted in code order, and the removebucket sentinel's duration carries the makebucket label. No storage call is made. |
| Prober.RunListed | s3-prober.go:158-226 | After a successful listing the method emits and calls exactly what `ListedPlan` prescribes. A failed makebucket ends the run. |
| Prober.ObjectSteps | s3-prober.go:171-220 | Put is measured first. Get, stat and remove are measured only when put succeeded, and sentinels are emitted otherwise. Removebucket comes last. |
| Prober.RemoveBucketStep | s3-prober.go:221-226 | Removebucket is measured only when the lifecycle is not skipped. |
| ProbeProperties.ConnectFailure | s3-prober.go:76-90 | A failed client construction emits only `Success(connect, 0)`, with no duration sample and no storage call. |
| ProbeProperties.ConnectedRunStartsWithListing | s3-prober.go:97-110 | A connected run starts with listbuckets: its first call, then its success (1 exactly when the listing succeeded) and its measured duration. No sample of a connected run is labelled connect. |
| ProbeProperties.ListBucketsFailure | s3-prober.go:112-156 | After a failed listing, the only storage call is the listing. The trace is exactly the listbuckets pair (success 0) followed by one sentinel pair for each remaining step in code order: makebucket and removebucket (the latter's duration labelled makebucket, both only without the skip), then put, get, stat and remove. Each sentinel pair is a zero success and a duration holding the timeout. |
| ProbeProperties.ListFailureOrder | s3-prober.go:114-154 | The sentinels report makebucket, removebucket, put, get, stat and remove, in that order, the first two only without the skip. Samples 3 and 5 are both makebucket durations holding the timeout. |
| ProbeProperties.MakeBucketPolicy | s3-prober.go:164-170 | Makebucket is called exactly when the client connects, the listing succeeds, and either the lifecycle is not skipped or the bucket is not listed. |
| ProbeProperties.MakeBucketFailure | s3-prober.go:164-169 | A failed makebucket ends the run after its pair. The trace is the listbuckets and makebucket pairs, and the calls are exactly listbuckets and makebucket. |
| ProbeProperties.TraceFromPut | s3-prober.go:97-177 | A run that reaches put emits the listbuckets pair, then the makebucket pair when it creates the bucket, then the samples from put on. The calls follow the same pattern. |
| ProbeProperties.PutPolicy | s3-prober.go:164-177 | Put is called exactly when the run reaches it: connected, listed, and makebucket either not needed or successful. |
| ProbeProperties.PutSucceeded | s3-prober.go:171-198 | After a successful put, get, stat and remove are each called and measured in that order, right after put's pair. Each is measured whatever the others return. |
| ProbeProperties.PutFailed | s3-prober.go:199-220 | After a failed put, get, stat and remove are never called. Their sentinels follow put's pair, and the only call after put is removebucket, when not skipped. |
| ProbeProperties.RemoveBucketPolicy | s3-prober.go:221-226 | Removebucket is called exactly when the run reaches put and the lifecycle is not skipped. It is never called after a failed connect, listing or makebucket. |
| ProbeProperties.RemoveBucketLast | s3-prober.go:221-226 | In a run that reaches put, removebucket is the last call and its pair the last two samples. With the skip, the run ends with remove's pair. The trace length is fixed. |
| ProbeProperties.SkipLifecycle | s3-prober.go:164-226 | With the skip flag, a listed bucket is neither created nor removed, and no sample reports either step. A bucket that is not listed is created but not removed. |
| ProbeProperties.InvokedInCanonicalOrder | s3-prober.go:73-228 | In every run, storage calls follow the canonical order listbuckets, makebucket, put, get, stat, remove, removebucket, strictly. So no call is made twice, and client construction is not a call. |
| ProbeProperties.TraceSeriesDistinctIff | s3-prober.go:121-126 | As written, a run emits two samples of one series exactly when it connects, the listing fails and the lifecycle is not skipped. |
| ProbeProperties.IntendedSeriesDistinct | s3-prober.go:121-126 | Label the removebucket sentinel's duration removebucket. Then no run, whatever the configuration and storage answers, emits two samples of one metric with the same labels. |
| ProbeProperties.IntendedTraceRelabels | s3-prober.go:121-126 | The corrected labelling changes only sample 5 of a connected run whose listing fails without the skip. That sample becomes a removebucket duration. Every other run's trace, and every run's calls, are those of the code as written. |
| Startup.StartDaemon | s3-prober.go:321-355 | Start-up succeeds exactly when bucket, endpoint, accesskey, secretkey and filename are all non-empty. The exporter then carries those values, the skip flag and the timeout. |
| Startup.StartDaemonReportsFirstEmpty | s3-prober.go:325-344 | Start-up fails exactly when a required flag is empty. The error is "invalid empty flag " followed by the first empty flag in the order bucket, endpoint, accesskey, secretkey, filename. |

## Left out

- Each call's timing (`time.Now`, `time.Since`) is not modelled: a measured duration is the
  abstract value `Measured`.
- The context deadline and the transport's header timeout are not modelled. A call that hits
  them is a call whose oracle answer is an error.
- Each storage call answers from a fixed `Storage` value. The minio client's construction
  options (credentials, TLS, region, transport) and the arguments of each call are not
  modelled. This includes the object name from `filepath.Split` and the `/tmp` download path.
- The exporter's mutex is not modelled: the model has no concurrency. `Collect` appends its
  samples to the channel in one block, which is what the lock guarantees between concurrent
  scrapes.
- Gauges are floats in the source. Here the success value is the integer 0 or 1, and the
  sentinel duration is the integer timeout that the source converts to `float64`.
- Prometheus is not modelled: the metric descriptors, `Describe`, the registry, the handler
  for `/probe` (`probeHandler`), and the text exposition. The series-uniqueness lemmas state
  the registry's requirement directly.
- The HTTP server is not modelled: the listen address, `/metrics`, the root page and
  `ListenAndServe`.
- The CLI is not modelled: `startCmd`, `main`, `init`, the flag defaults and the binding of
  environment variables. `Startup.Flags` holds the values after the CLI has applied them.
- Logging (`klog`) has no observable effect on the samples or calls, so it is not modelled.
- `Collect` keeps the code's label on the removebucket sentinel. The corrected labelling is
  `IntendedTrace` (the plan with `removeBucketLabel` set to removebucket). `IntendedTraceRelabels`
  proves that it differs from `Trace` only in sample 5 after a failed listing without the skip,
  and that the calls are the same. The call-level lemmas therefore carry over to it unchanged.
  `ListBucketsFailure` and `ListFailureOrder` describe the trace as written, so their
  makebucket label on sample 5 does not hold for `IntendedTrace`.

## Findings

| source | as written | input that shows it | evidently intended | confidence | as-written member | corrected member |
|---|---|---|---|---|---|---|
| s3-prober.go:124-126 | The removebucket sentinel emitted after a failed listing labels its `probe_duration_seconds` sample `makebucket`. The run therefore emits two `probe_duration_seconds{operation="makebucket"}` samples for one endpoint, which a Prometheus registry rejects when it gathers. | The client connects, `ListBuckets` returns an error, and `skipmakedeletebucket` is false. | Label the sample `removebucket`, so that every series appears once. | not executed | ProbeProperties.TraceSeriesDistinctIff | ProbeProperties.IntendedSeriesDistinct |
