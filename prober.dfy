/**
 * The probe sequencer of the s3 prober: one scrape runs a fixed sequence of
 * storage steps against the configured bucket and reports, for every step it
 * attempts or gives up on, a `probe_success` and a `probe_duration_seconds`
 * sample labelled with the step's operation name and the endpoint.
 */
module Prober {
  import opened Wrappers

  /** The operations a probe run reports on, in the order `Collect` reaches them. */
  datatype Op = Connect | ListBuckets | MakeBucket | Put | Get | Stat | Remove | RemoveBucket

  /** The value of the `operation` label of a sample. */
  function Label(op: Op): string {
    match op
    case Connect => "connect"
    case ListBuckets => "listbuckets"
    case MakeBucket => "makebucket"
    case Put => "put"
    case Get => "get"
    case Stat => "stat"
    case Remove => "remove"
    case RemoveBucket => "removebucket"
  }

  /** Position of an operation in the canonical step order. */
  function Rank(op: Op): nat {
    match op
    case Connect => 0
    case ListBuckets => 1
    case MakeBucket => 2
    case Put => 3
    case Get => 4
    case Stat => 5
    case Remove => 6
    case RemoveBucket => 7
  }

  /**
   * The value of a duration sample: the measured wall-clock time of a call
   * (abstracted), or the configured operation timeout in seconds, which the
   * sequencer reports for a step it did not attempt.
   */
  datatype Elapsed = Measured | Timeout(seconds: int)

  /**
   * One emitted metric: a `probe_success` gauge (value 1 or 0) or a
   * `probe_duration_seconds` gauge, with its two labels.
   */
  datatype Sample =
    | Success(op: Op, endpoint: string, value: int)
    | Duration(op: Op, endpoint: string, elapsed: Elapsed)

  /** The error a storage call returns; its content is only logged. */
  datatype StorageError = StorageError(cause: string)

  /** An entry of the bucket listing; the sequencer looks only at its name. */
  datatype BucketInfo = BucketInfo(name: string)

  /**
   * What the storage endpoint answers to each call of one run. `connect` is
   * the outcome of constructing the client. Each step is called at most once
   * per run (see ProbeProperties.InvokedInCanonicalOrder), so one fixed answer
   * per step covers every behaviour of the endpoint.
   */
  datatype Storage = Storage(
    connect: Option<StorageError>,
    listBuckets: Result<seq<BucketInfo>, StorageError>,
    makeBucket: Option<StorageError>,
    put: Option<StorageError>,
    get: Option<StorageError>,
    stat: Option<StorageError>,
    remove: Option<StorageError>,
    removeBucket: Option<StorageError>)
  {
    /** The error, if any, that the call for `op` returns. */
    function Reply(op: Op): Option<StorageError> {
      match op
      case Connect => connect
      case ListBuckets => if listBuckets.Err? then Some(listBuckets.error) else None
      case MakeBucket => makeBucket
      case Put => put
      case Get => get
      case Stat => stat
      case Remove => remove
      case RemoveBucket => removeBucket
    }
  }

  /** The exporter's configuration; it is read-only during a run (the mutex is not modelled). */
  datatype Exporter = Exporter(
    bucket: string,
    endpoint: string,
    accessKey: string,
    secretKey: string,
    filename: string,
    skipmakedeletebucket: bool,
    opTimeout: int)

  /**
   * The storage client. It answers every call from its `storage` oracle and
   * records, in `invoked`, which calls it received in which order.
   */
  class Client {
    const storage: Storage
    var invoked: seq<Op>

    constructor (s: Storage)
      ensures storage == s && invoked == []
    {
      storage := s;
      invoked := [];
    }

    method ListAllBuckets() returns (r: Result<seq<BucketInfo>, StorageError>)
      modifies this
      ensures r == storage.listBuckets
      ensures invoked == old(invoked) + [ListBuckets]
    {
      r := storage.listBuckets;
      invoked := invoked + [ListBuckets];
    }

    /** One of the bucket or object calls, chosen by `op`. */
    method Call(op: Op) returns (err: Option<StorageError>)
      modifies this
      ensures err == storage.Reply(op)
      ensures invoked == old(invoked) + [op]
    {
      err := storage.Reply(op);
      invoked := invoked + [op];
    }
  }

  /** The metric channel `Collect` writes into; it keeps everything sent, in order. */
  class Channel {
    var sent: seq<Sample>

    constructor ()
      ensures sent == []
    {
      sent := [];
    }

    method Send(m: Sample)
      modifies this
      ensures sent == old(sent) + [m]
    {
      sent := sent + [m];
    }
  }

  /** The `probe_success` value for a call that returned `err`. */
  function SuccessValue(err: Option<StorageError>): (v: int)
    ensures v == 1 <==> err.None?
    ensures v == 0 <==> err.Some?
  {
    if err.None? then 1 else 0
  }

  /**
   * One entry of a run's plan: a step called through `measure`, a step
   * reported as not attempted (its duration sample labelled `durationLabel`),
   * or the connect failure.
   */
  datatype Step =
    | Call(op: Op, err: Option<StorageError>)
    | Skipped(op: Op, durationLabel: Op)
    | Unconnected

  /** The operation a step reports on. */
  function StepOp(st: Step): Op {
    match st
    case Call(op, _) => op
    case Skipped(op, _) => op
    case Unconnected => Connect
  }

  /** The samples one step emits. */
  function StepSamples(e: Exporter, st: Step): (r: seq<Sample>)
    ensures |r| == if st.Unconnected? then 1 else 2
    ensures r[0] == Success(StepOp(st), e.endpoint, if st.Call? then SuccessValue(st.err) else 0)
  {
    match st
    case Call(op, err) => [Success(op, e.endpoint, SuccessValue(err)), Duration(op, e.endpoint, Measured)]
    case Skipped(op, durationOp) => [Success(op, e.endpoint, 0), Duration(durationOp, e.endpoint, Timeout(e.opTimeout))]
    case Unconnected => [Success(Connect, e.endpoint, 0)]
  }

  /** The steps of a run, first to last. */
  datatype Plan = End | Then(step: Step, next: Plan)

  /** The samples a plan emits, step after step. */
  function Samples(e: Exporter, p: Plan): seq<Sample> {
    match p
    case End => []
    case Then(st, next) => StepSamples(e, st) + Samples(e, next)
  }

  /** The steps of a plan as a sequence. */
  function Steps(p: Plan): seq<Step> {
    match p
    case End => []
    case Then(st, next) => [st] + Steps(next)
  }

  /** The storage calls a plan makes: one per `Call` step. */
  function Calls(p: Plan): seq<Op> {
    match p
    case End => []
    case Then(st, next) => (if st.Call? then [st.op] else []) + Calls(next)
  }

  /** The configured bucket is among the listed ones. */
  ghost predicate Found(bs: seq<BucketInfo>, bucket: string) {
    exists i :: 0 <= i < |bs| && bs[i].name == bucket
  }

  /** Whether the run creates the bucket, given the listing. */
  ghost predicate MakesBucket(e: Exporter, bs: seq<BucketInfo>) {
    !e.skipmakedeletebucket || !Found(bs, e.bucket)
  }

  /** The steps reported after a failed bucket listing; `removeBucketLabel` labels the removebucket sentinel's duration. */
  function ListFailurePlan(e: Exporter, removeBucketLabel: Op): Plan {
    var objects :=
      Then(Skipped(Put, Put), Then(Skipped(Get, Get), Then(Skipped(Stat, Stat), Then(Skipped(Remove, Remove), End))));
    if !e.skipmakedeletebucket
    then Then(Skipped(MakeBucket, MakeBucket), Then(Skipped(RemoveBucket, removeBucketLabel), objects))
    else objects
  }

  /** The last step: removebucket, unless the bucket lifecycle is skipped. */
  function RemoveBucketPlan(e: Exporter, s: Storage): Plan {
    if !e.skipmakedeletebucket then Then(Call(RemoveBucket, s.removeBucket), End) else End
  }

  /** From put on: put, then get, stat and remove if put succeeded or their sentinels if not, then removebucket. */
  function ObjectPlan(e: Exporter, s: Storage): Plan {
    var last := RemoveBucketPlan(e, s);
    Then(Call(Put, s.put),
      if s.put.None?
      then Then(Call(Get, s.get), Then(Call(Stat, s.stat), Then(Call(Remove, s.remove), last)))
      else Then(Skipped(Get, Get), Then(Skipped(Stat, Stat), Then(Skipped(Remove, Remove), last))))
  }

  /** The steps that follow a successful listing `bs`. */
  ghost function ListedPlan(e: Exporter, s: Storage, bs: seq<BucketInfo>): Plan {
    if MakesBucket(e, bs)
    then Then(Call(MakeBucket, s.makeBucket), if s.makeBucket.Some? then End else ObjectPlan(e, s))
    else ObjectPlan(e, s)
  }

  /** The steps of one run, with the removebucket sentinel's duration labelled `removeBucketLabel`. */
  ghost function PlanWith(e: Exporter, s: Storage, removeBucketLabel: Op): Plan {
    if s.connect.Some? then Then(Unconnected, End)
    else
      Then(Call(ListBuckets, s.Reply(ListBuckets)),
        match s.listBuckets
        case Err(_) => ListFailurePlan(e, removeBucketLabel)
        case Ok(bs) => ListedPlan(e, s, bs))
  }

  /** The steps of one run as the code is written. */
  ghost function RunPlan(e: Exporter, s: Storage): Plan {
    PlanWith(e, s, MakeBucket)
  }

  /** The samples `Collect` emits, in order. */
  ghost function Trace(e: Exporter, s: Storage): seq<Sample> {
    Samples(e, RunPlan(e, s))
  }

  /** The samples with the removebucket sentinel's duration labelled removebucket. */
  ghost function IntendedTrace(e: Exporter, s: Storage): seq<Sample> {
    Samples(e, PlanWith(e, s, RemoveBucket))
  }

  /** The storage calls `Collect` makes, in order. */
  ghost function Invoked(e: Exporter, s: Storage): seq<Op> {
    Calls(RunPlan(e, s))
  }

  /**
   * Performing the first step of what remains of a plan keeps "emitted so
   * far plus what remains" equal to the whole plan's samples, and likewise
   * for the storage calls.
   */
  lemma Advance(e: Exporter, rest: Plan, sent: seq<Sample>, sent': seq<Sample>, samples: seq<Sample>,
                invoked: seq<Op>, invoked': seq<Op>, calls: seq<Op>)
    requires rest.Then?
    requires sent + Samples(e, rest) == samples && invoked + Calls(rest) == calls
    requires sent' == sent + StepSamples(e, rest.step)
    requires invoked' == invoked + (if rest.step.Call? then [rest.step.op] else [])
    ensures sent' + Samples(e, rest.next) == samples && invoked' + Calls(rest.next) == calls
  {
    assert sent + Samples(e, rest) == sent + (StepSamples(e, rest.step) + Samples(e, rest.next));
    assert invoked + Calls(rest) == invoked + ((if rest.step.Call? then [rest.step.op] else []) + Calls(rest.next));
  }

  /** The bucket scan of `Collect`: looks at every listed bucket, without stopping early. */
  method ScanBuckets(bs: seq<BucketInfo>, bucket: string) returns (found: bool)
    ensures found == Found(bs, bucket)
  {
    found := false;
    for k := 0 to |bs|
      invariant found <==> exists i :: 0 <= i < k && bs[i].name == bucket
    {
      if bs[k].name == bucket {
        found := true;
      }
    }
  }

  /**
   * `measure`: call the step, emit its success and duration samples, and hand
   * the call's error back unchanged.
   */
  method Measure(e: Exporter, op: Op, ch: Channel, client: Client) returns (err: Option<StorageError>)
    modifies ch, client
    ensures err == client.storage.Reply(op)
    ensures client.invoked == old(client.invoked) + [op]
    ensures ch.sent == old(ch.sent) + [Success(op, e.endpoint, SuccessValue(err)), Duration(op, e.endpoint, Measured)]
  {
    var success := 1;
    err := client.Call(op);
    if err.Some? {
      success := 0;
    }
    ch.Send(Success(op, e.endpoint, success));
    ch.Send(Duration(op, e.endpoint, Measured));
  }

  /** Emit the two samples of a step that is not attempted. */
  method SendSentinel(e: Exporter, op: Op, durationLabel: Op, ch: Channel)
    modifies ch
    ensures ch.sent == old(ch.sent) + StepSamples(e, Skipped(op, durationLabel))
  {
    ch.Send(Success(op, e.endpoint, 0));
    ch.Send(Duration(durationLabel, e.endpoint, Timeout(e.opTimeout)));
  }

  /** The sentinels `Collect` emits after a failed bucket listing, as written; none of them calls storage. */
  method SendListFailureSentinels(e: Exporter, ch: Channel)
    modifies ch
    ensures ch.sent == old(ch.sent) + Samples(e, ListFailurePlan(e, MakeBucket))
    ensures Calls(ListFailurePlan(e, MakeBucket)) == []
  {
    ghost var rest := ListFailurePlan(e, MakeBucket);
    ghost var samples, calls := ch.sent + Samples(e, rest), Calls(rest);
    ghost var sent, none := ch.sent, [];
    if !e.skipmakedeletebucket {
      SendSentinel(e, MakeBucket, MakeBucket, ch);
      Advance(e, rest, sent, ch.sent, samples, none, none, calls);
      rest, sent := rest.next, ch.sent;
      SendSentinel(e, RemoveBucket, MakeBucket, ch);
      Advance(e, rest, sent, ch.sent, samples, none, none, calls);
      rest, sent := rest.next, ch.sent;
    }
    SendSentinel(e, Put, Put, ch);
    Advance(e, rest, sent, ch.sent, samples, none, none, calls);
    rest, sent := rest.next, ch.sent;
    SendSentinel(e, Get, Get, ch);
    Advance(e, rest, sent, ch.sent, samples, none, none, calls);
    rest, sent := rest.next, ch.sent;
    SendSentinel(e, Stat, Stat, ch);
    Advance(e, rest, sent, ch.sent, samples, none, none, calls);
    rest, sent := rest.next, ch.sent;
    SendSentinel(e, Remove, Remove, ch);
    Advance(e, rest, sent, ch.sent, samples, none, none, calls);
  }

  /** The removebucket step, unless the bucket lifecycle is skipped. */
  method RemoveBucketStep(e: Exporter, ch: Channel, client: Client)
    modifies ch, client
    ensures ch.sent == old(ch.sent) + Samples(e, RemoveBucketPlan(e, client.storage))
    ensures client.invoked == old(client.invoked) + Calls(RemoveBucketPlan(e, client.storage))
  {
    if !e.skipmakedeletebucket {
      var err := Measure(e, RemoveBucket, ch, client);
    }
  }

  /** From put on: get, stat and remove only if put succeeded, then removebucket. */
  method ObjectSteps(e: Exporter, ch: Channel, client: Client)
    modifies ch, client
    ensures ch.sent == old(ch.sent) + Samples(e, ObjectPlan(e, client.storage))
    ensures client.invoked == old(client.invoked) + Calls(ObjectPlan(e, client.storage))
  {
    ghost var rest := ObjectPlan(e, client.storage);
    ghost var samples, calls := old(ch.sent) + Samples(e, rest), old(client.invoked) + Calls(rest);
    ghost var sent, invoked := ch.sent, client.invoked;
    var err := Measure(e, Put, ch, client);
    Advance(e, rest, sent, ch.sent, samples, invoked, client.invoked, calls);
    rest, sent, invoked := rest.next, ch.sent, client.invoked;
    // only if put succeeded
    if err.None? {
      err := Measure(e, Get, ch, client);
      Advance(e, rest, sent, ch.sent, samples, invoked, client.invoked, calls);
      rest, sent, invoked := rest.next, ch.sent, client.invoked;
      err := Measure(e, Stat, ch, client);
      Advance(e, rest, sent, ch.sent, samples, invoked, client.invoked, calls);
      rest, sent, invoked := rest.next, ch.sent, client.invoked;
      err := Measure(e, Remove, ch, client);
      Advance(e, rest, sent, ch.sent, samples, invoked, client.invoked, calls);
      rest, sent, invoked := rest.next, ch.sent, client.invoked;
    } else {
      SendSentinel(e, Get, Get, ch);
      Advance(e, rest, sent, ch.sent, samples, invoked, client.invoked, calls);
      rest, sent := rest.next, ch.sent;
      SendSentinel(e, Stat, Stat, ch);
      Advance(e, rest, sent, ch.sent, samples, invoked, client.invoked, calls);
      rest, sent := rest.next, ch.sent;
      SendSentinel(e, Remove, Remove, ch);
      Advance(e, rest, sent, ch.sent, samples, invoked, client.invoked, calls);
      rest, sent := rest.next, ch.sent;
    }
    RemoveBucketStep(e, ch, client);
  }

  /** The part of `Collect` that follows a successful listing `bs`. */
  method RunListed(e: Exporter, bs: seq<BucketInfo>, ch: Channel, client: Client)
    modifies ch, client
    ensures ch.sent == old(ch.sent) + Samples(e, ListedPlan(e, client.storage, bs))
    ensures client.invoked == old(client.invoked) + Calls(ListedPlan(e, client.storage, bs))
  {
    ghost var rest := ListedPlan(e, client.storage, bs);
    ghost var samples, calls := ch.sent + Samples(e, rest), client.invoked + Calls(rest);
    ghost var sent, invoked := ch.sent, client.invoked;
    var found := ScanBuckets(bs, e.bucket);
    if !e.skipmakedeletebucket || !found {
      var err := Measure(e, MakeBucket, ch, client);
      Advance(e, rest, sent, ch.sent, samples, invoked, client.invoked, calls);
      rest, sent, invoked := rest.next, ch.sent, client.invoked;
      if err.Some? {
        return;
      }
    }
    ObjectSteps(e, ch, client);
  }

  /**
   * `Exporter.Collect`: one probe run against the endpoint whose answers are
   * `s`. All its samples reach `ch` in one contiguous block, and it returns
   * the storage calls it made.
   */
  method Collect(e: Exporter, s: Storage, ch: Channel) returns (invoked: seq<Op>)
    modifies ch
    ensures ch.sent == old(ch.sent) + Trace(e, s)
    ensures invoked == Invoked(e, s)
  {
    if s.connect.Some? {
      ch.Send(Success(Connect, e.endpoint, 0));
      return [];
    }
    var client := new Client(s);
    ghost var rest := RunPlan(e, s);
    ghost var samples, calls := ch.sent + Samples(e, rest), Calls(rest);
    ghost var sent := ch.sent;

    var success := 1;
    var bs := client.ListAllBuckets();
    if bs.Err? {
      success := 0;
    }
    ch.Send(Success(ListBuckets, e.endpoint, success));
    ch.Send(Duration(ListBuckets, e.endpoint, Measured));
    Advance(e, rest, sent, ch.sent, samples, [], client.invoked, calls);
    rest := rest.next;

    if bs.Err? {
      SendListFailureSentinels(e, ch);
    } else {
      RunListed(e, bs.value, ch, client);
    }
    invoked := client.invoked;
  }
}
