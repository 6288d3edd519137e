/** Properties of the probe sequencer's runs. */
module ProbeProperties {
  import opened Wrappers
  import opened Prober

  /* ---------- Plans, spelled out ---------- */

  /** A step of a connected run: it reports on a storage operation and no sample of it is labelled connect. */
  predicate ReportingStep(st: Step) {
    !st.Unconnected? && StepOp(st) != Connect && (st.Skipped? ==> st.durationLabel != Connect)
  }

  /** Every step reports on a storage operation. */
  predicate Reporting(steps: seq<Step>) {
    forall k :: 0 <= k < |steps| ==> ReportingStep(steps[k])
  }

  /** A reporting step in front of reporting steps. */
  lemma ReportingCons(st: Step, steps: seq<Step>)
    requires ReportingStep(st) && Reporting(steps)
    ensures Reporting([st] + steps)
  {
    forall k | 0 <= k < |[st] + steps| ensures ReportingStep(([st] + steps)[k]) {
      if k > 0 {
        assert ([st] + steps)[k] == steps[k - 1];
      }
    }
  }

  /** The samples of a plan of reporting steps come in pairs, one pair per step, in order. */
  lemma {:induction false} SamplesPaired(e: Exporter, p: Plan)
    requires Reporting(Steps(p))
    ensures |Samples(e, p)| == 2 * |Steps(p)|
    ensures forall k :: 0 <= k < |Steps(p)| ==>
      Samples(e, p)[2 * k] == StepSamples(e, Steps(p)[k])[0] &&
      Samples(e, p)[2 * k + 1] == StepSamples(e, Steps(p)[k])[1]
  {
    match p
    case End =>
    case Then(st, next) =>
      assert Steps(p) == [st] + Steps(next);
      forall k | 0 <= k < |Steps(next)| ensures ReportingStep(Steps(next)[k]) {
        assert Steps(next)[k] == Steps(p)[k + 1];
      }
      SamplesPaired(e, next);
      assert ReportingStep(Steps(p)[0]);
      forall k | 0 <= k < |Steps(p)|
        ensures Samples(e, p)[2 * k] == StepSamples(e, Steps(p)[k])[0]
        ensures Samples(e, p)[2 * k + 1] == StepSamples(e, Steps(p)[k])[1]
      {
        if k > 0 {
          assert Steps(p)[k] == Steps(next)[k - 1];
          assert Samples(e, p)[2 * k] == Samples(e, next)[2 * (k - 1)];
          assert Samples(e, p)[2 * k + 1] == Samples(e, next)[2 * (k - 1) + 1];
        }
      }
  }

  /** The steps and calls reported after a failed listing. */
  lemma ListFailureSteps(e: Exporter, lbl: Op)
    requires lbl != Connect
    ensures Reporting(Steps(ListFailurePlan(e, lbl)))
    ensures Steps(ListFailurePlan(e, lbl)) ==
      (if !e.skipmakedeletebucket then [Skipped(MakeBucket, MakeBucket), Skipped(RemoveBucket, lbl)] else [])
      + [Skipped(Put, Put), Skipped(Get, Get), Skipped(Stat, Stat), Skipped(Remove, Remove)]
    ensures Calls(ListFailurePlan(e, lbl)) == []
  {
    var p := ListFailurePlan(e, lbl);
    if !e.skipmakedeletebucket {
      p := p.next.next;
    }
    assert Steps(p.next.next) == [Skipped(Stat, Stat), Skipped(Remove, Remove)];
    assert Calls(p.next.next) == [];
  }

  /** The samples reported after a failed listing: success 0 and the timeout for every remaining step. */
  lemma ListFailureSamples(e: Exporter, lbl: Op)
    ensures Samples(e, ListFailurePlan(e, lbl)) == ListFailureSentinels(e, lbl)
  {
    var p := ListFailurePlan(e, lbl);
    var t := Timeout(e.opTimeout);
    if !e.skipmakedeletebucket {
      assert Samples(e, p) == StepSamples(e, p.step) + Samples(e, p.next);
      assert Samples(e, p.next) == StepSamples(e, p.next.step) + Samples(e, p.next.next);
      p := p.next.next;
    }
    assert Samples(e, p.next.next.next) == StepSamples(e, Skipped(Remove, Remove)) + Samples(e, End);
    assert Samples(e, p.next.next) == StepSamples(e, Skipped(Stat, Stat)) + Samples(e, p.next.next.next);
    assert Samples(e, p.next) == StepSamples(e, Skipped(Get, Get)) + Samples(e, p.next.next);
    assert Samples(e, p) == StepSamples(e, Skipped(Put, Put)) + Samples(e, p.next);
  }

  /** The steps and calls from put on. */
  lemma ObjectPlanSteps(e: Exporter, s: Storage)
    ensures Reporting(Steps(ObjectPlan(e, s)))
    ensures Steps(ObjectPlan(e, s)) ==
      [Call(Put, s.put)]
      + (if s.put.None? then [Call(Get, s.get), Call(Stat, s.stat), Call(Remove, s.remove)]
         else [Skipped(Get, Get), Skipped(Stat, Stat), Skipped(Remove, Remove)])
      + (if !e.skipmakedeletebucket then [Call(RemoveBucket, s.removeBucket)] else [])
    ensures Calls(ObjectPlan(e, s)) ==
      [Put] + (if s.put.None? then [Get, Stat, Remove] else [])
      + (if !e.skipmakedeletebucket then [RemoveBucket] else [])
  {
    var p := ObjectPlan(e, s);
    var last := RemoveBucketPlan(e, s);
    assert Steps(last) == (if !e.skipmakedeletebucket then [Call(RemoveBucket, s.removeBucket)] else []);
    assert Calls(last) == (if !e.skipmakedeletebucket then [RemoveBucket] else []);
    var q := p.next.next.next;
    assert q.next == last;
    assert Steps(q) == [q.step] + Steps(last);
    assert Calls(q) == (if s.put.None? then [Remove] else []) + Calls(last);
    assert Steps(p.next.next) == [p.next.next.step] + Steps(q);
    assert Calls(p.next.next) == (if s.put.None? then [Stat] else []) + Calls(q);
    assert Steps(p.next) == [p.next.step] + Steps(p.next.next);
    assert Calls(p.next) == (if s.put.None? then [Get] else []) + Calls(p.next.next);
  }

  /** The steps and calls that follow a successful listing. */
  lemma ListedPlanSteps(e: Exporter, s: Storage, bs: seq<BucketInfo>)
    ensures Reporting(Steps(ListedPlan(e, s, bs)))
    ensures Steps(ListedPlan(e, s, bs)) ==
      if MakesBucket(e, bs) && s.makeBucket.Some? then [Call(MakeBucket, s.makeBucket)]
      else (if MakesBucket(e, bs) then [Call(MakeBucket, None)] else []) + Steps(ObjectPlan(e, s))
    ensures Calls(ListedPlan(e, s, bs)) ==
      if MakesBucket(e, bs) && s.makeBucket.Some? then [MakeBucket]
      else (if MakesBucket(e, bs) then [MakeBucket] else []) + Calls(ObjectPlan(e, s))
  {
    ObjectPlanSteps(e, s);
    if MakesBucket(e, bs) && s.makeBucket.None? {
      ReportingCons(Call(MakeBucket, None), Steps(ObjectPlan(e, s)));
    }
  }

  /** Sample `i` of a plan of reporting steps is half of step `i / 2`'s pair. */
  lemma SampleAt(e: Exporter, p: Plan, i: int)
    requires Reporting(Steps(p))
    requires 0 <= i < 2 * |Steps(p)|
    ensures |Samples(e, p)| == 2 * |Steps(p)|
    ensures Samples(e, p)[i] == StepSamples(e, Steps(p)[i / 2])[i % 2]
  {
    SamplesPaired(e, p);
    var k := i / 2;
    assert i == 2 * k || i == 2 * k + 1;
  }

  /* ---------- Connect ---------- */

  /** A failed client construction yields the single connect sample, with no duration, and no storage call. */
  lemma ConnectFailure(e: Exporter, s: Storage)
    requires s.connect.Some?
    ensures Trace(e, s) == [Success(Connect, e.endpoint, 0)]
    ensures Invoked(e, s) == []
  {
    assert RunPlan(e, s) == Then(Unconnected, End);
    assert Samples(e, End) == [];
  }

  /** Every connected run reports, as its first pair, the listbuckets call and its outcome. */
  lemma ConnectedRunStartsWithListing(e: Exporter, s: Storage)
    requires s.connect.None?
    ensures |Trace(e, s)| >= 2
    ensures Trace(e, s)[0] == Success(ListBuckets, e.endpoint, if s.listBuckets.Ok? then 1 else 0)
    ensures Trace(e, s)[1] == Duration(ListBuckets, e.endpoint, Measured)
    ensures forall i :: 0 <= i < |Trace(e, s)| ==> Trace(e, s)[i].op != Connect
    ensures |Invoked(e, s)| >= 1 && Invoked(e, s)[0] == ListBuckets
  {
    var p := RunPlan(e, s);
    ConnectedSteps(e, s, MakeBucket);
    SamplesPaired(e, p);
    assert Steps(p)[0] == Call(ListBuckets, s.Reply(ListBuckets));
    forall i | 0 <= i < |Trace(e, s)| ensures Trace(e, s)[i].op != Connect {
      SampleAt(e, p, i);
      assert ReportingStep(Steps(p)[i / 2]);
    }
  }

  /** The steps of a connected run: the listing, then what follows it, all reporting. */
  lemma ConnectedSteps(e: Exporter, s: Storage, lbl: Op)
    requires s.connect.None? && lbl != Connect
    ensures Steps(PlanWith(e, s, lbl)) == [Call(ListBuckets, s.Reply(ListBuckets))] + Steps(PlanWith(e, s, lbl).next)
    ensures Calls(PlanWith(e, s, lbl)) == [ListBuckets] + Calls(PlanWith(e, s, lbl).next)
    ensures Reporting(Steps(PlanWith(e, s, lbl)))
  {
    var p := PlanWith(e, s, lbl);
    match s.listBuckets
    case Err(_) => ListFailureSteps(e, lbl);
    case Ok(bs) => ListedPlanSteps(e, s, bs);
    ReportingCons(p.step, Steps(p.next));
  }

  /* ---------- Listing failure ---------- */

  /** A sample of a step that was not attempted: success 0, or the timeout as duration. */
  predicate IsSentinel(e: Exporter, m: Sample) {
    match m
    case Success(_, _, v) => v == 0
    case Duration(_, _, d) => d == Timeout(e.opTimeout)
  }

  /** The operations reported by sentinels after a failed listing, in emission order. */
  function ListFailureOps(e: Exporter): seq<Op> {
    (if !e.skipmakedeletebucket then [MakeBucket, RemoveBucket] else []) + [Put, Get, Stat, Remove]
  }

  /**
   * The sentinel pairs after a failed listing, spelled out: makebucket and
   * removebucket (without the skip; removebucket's duration labelled `lbl`),
   * then put, get, stat and remove.
   */
  function ListFailureSentinels(e: Exporter, lbl: Op): seq<Sample> {
    var t := Timeout(e.opTimeout);
    (if !e.skipmakedeletebucket
     then [Success(MakeBucket, e.endpoint, 0), Duration(MakeBucket, e.endpoint, t),
           Success(RemoveBucket, e.endpoint, 0), Duration(lbl, e.endpoint, t)]
     else [])
    + [Success(Put, e.endpoint, 0), Duration(Put, e.endpoint, t),
       Success(Get, e.endpoint, 0), Duration(Get, e.endpoint, t),
       Success(Stat, e.endpoint, 0), Duration(Stat, e.endpoint, t),
       Success(Remove, e.endpoint, 0), Duration(Remove, e.endpoint, t)]
  }

  /**
   * After a failed listing the run emits its listbuckets pair, then only
   * sentinels, one pair per remaining step, each a zero success and the
   * timeout as duration, and makes no further storage call.
   */
  lemma ListBucketsFailure(e: Exporter, s: Storage)
    requires s.connect.None? && s.listBuckets.Err?
    ensures Trace(e, s) ==
      [Success(ListBuckets, e.endpoint, 0), Duration(ListBuckets, e.endpoint, Measured)]
      + ListFailureSentinels(e, MakeBucket)
    ensures var t := Trace(e, s);
      && |t| == 2 + 2 * |ListFailureOps(e)|
      && t[0] == Success(ListBuckets, e.endpoint, 0)
      && t[1] == Duration(ListBuckets, e.endpoint, Measured)
      && (forall i :: 2 <= i < |t| ==> IsSentinel(e, t[i]))
    ensures Invoked(e, s) == [ListBuckets]
  {
    var p := RunPlan(e, s);
    ConnectedSteps(e, s, MakeBucket);
    ListFailureSteps(e, MakeBucket);
    var steps := Steps(p);
    assert steps == [Call(ListBuckets, s.Reply(ListBuckets))] + Steps(ListFailurePlan(e, MakeBucket));
    SamplesPaired(e, p);
    forall i | 2 <= i < |Trace(e, s)| ensures IsSentinel(e, Trace(e, s)[i]) {
      SampleAt(e, p, i);
      assert steps[i / 2].Skipped?;
    }
    ListFailureSamples(e, MakeBucket);
    assert Trace(e, s) == StepSamples(e, p.step) + Samples(e, p.next);
  }

  /**
   * The sentinels after a failed listing report makebucket, removebucket
   * (both only without the skip), put, get, stat and remove, in that order;
   * the removebucket sentinel's duration is labelled makebucket, like the
   * makebucket sentinel's.
   */
  lemma ListFailureOrder(e: Exporter, s: Storage)
    requires s.connect.None? && s.listBuckets.Err?
    ensures var t := Trace(e, s);
      && |t| == 2 + 2 * |ListFailureOps(e)|
      && (forall k :: 0 <= k < |ListFailureOps(e)| ==> t[2 * k + 2] == Success(ListFailureOps(e)[k], e.endpoint, 0))
      && (!e.skipmakedeletebucket ==>
            t[3] == Duration(MakeBucket, e.endpoint, Timeout(e.opTimeout)) &&
            t[5] == Duration(MakeBucket, e.endpoint, Timeout(e.opTimeout)))
  {
    var p := RunPlan(e, s);
    ConnectedSteps(e, s, MakeBucket);
    ListFailureSteps(e, MakeBucket);
    var steps := Steps(p);
    assert steps == [Call(ListBuckets, s.Reply(ListBuckets))] + Steps(ListFailurePlan(e, MakeBucket));
    SamplesPaired(e, p);
    forall k | 0 <= k < |ListFailureOps(e)|
      ensures Trace(e, s)[2 * k + 2] == Success(ListFailureOps(e)[k], e.endpoint, 0)
    {
      assert steps[k + 1] == Skipped(ListFailureOps(e)[k], steps[k + 1].durationLabel);
    }
    if !e.skipmakedeletebucket {
      assert steps[1] == Skipped(MakeBucket, MakeBucket);
      assert steps[2] == Skipped(RemoveBucket, MakeBucket);
    }
  }

  /* ---------- Bucket creation ---------- */

  /**
   * Bucket creation is attempted exactly when the client connects, the
   * listing succeeds, and the lifecycle is not skipped or the bucket is not
   * listed.
   */
  lemma MakeBucketPolicy(e: Exporter, s: Storage)
    ensures MakeBucket in Invoked(e, s) <==>
      s.connect.None? && s.listBuckets.Ok? && MakesBucket(e, s.listBuckets.value)
  {
    if s.connect.Some? {
      ConnectFailure(e, s);
    } else if s.listBuckets.Err? {
      ListBucketsFailure(e, s);
    } else {
      var bs := s.listBuckets.value;
      var p := RunPlan(e, s);
      assert Invoked(e, s) == [ListBuckets] + Calls(ListedPlan(e, s, bs));
      ObjectPlanSteps(e, s);
      assert MakeBucket !in Calls(ObjectPlan(e, s));
      if MakesBucket(e, bs) {
        assert Calls(ListedPlan(e, s, bs)) == [MakeBucket] + Calls(p.next.next);
      }
    }
  }

  /** A failed bucket creation ends the run right after its pair: no object step, no sentinel, no removebucket. */
  lemma MakeBucketFailure(e: Exporter, s: Storage)
    requires s.connect.None? && s.listBuckets.Ok? && s.makeBucket.Some?
    requires !e.skipmakedeletebucket || !Found(s.listBuckets.value, e.bucket)
    ensures Trace(e, s) == [Success(ListBuckets, e.endpoint, 1), Duration(ListBuckets, e.endpoint, Measured),
                            Success(MakeBucket, e.endpoint, 0), Duration(MakeBucket, e.endpoint, Measured)]
    ensures Invoked(e, s) == [ListBuckets, MakeBucket]
  {
    var p := RunPlan(e, s);
    assert p.next == Then(Call(MakeBucket, s.makeBucket), End);
    assert Samples(e, p.next) == StepSamples(e, Call(MakeBucket, s.makeBucket)) + Samples(e, End);
    assert Calls(p.next) == [MakeBucket] + Calls(End);
    assert Calls(p) == [ListBuckets] + Calls(p.next);
  }

  /* ---------- From put on ---------- */

  /** The run reaches put: connected, listed, and bucket creation either not needed or successful. */
  ghost predicate ReachesPut(e: Exporter, s: Storage) {
    s.connect.None? && s.listBuckets.Ok? && (!MakesBucket(e, s.listBuckets.value) || s.makeBucket.None?)
  }

  /** The samples from put on. */
  lemma ObjectPlanSamples(e: Exporter, s: Storage)
    ensures Samples(e, ObjectPlan(e, s)) ==
      [Success(Put, e.endpoint, SuccessValue(s.put)), Duration(Put, e.endpoint, Measured)]
      + (if s.put.None?
         then [Success(Get, e.endpoint, SuccessValue(s.get)), Duration(Get, e.endpoint, Measured),
               Success(Stat, e.endpoint, SuccessValue(s.stat)), Duration(Stat, e.endpoint, Measured),
               Success(Remove, e.endpoint, SuccessValue(s.remove)), Duration(Remove, e.endpoint, Measured)]
         else [Success(Get, e.endpoint, 0), Duration(Get, e.endpoint, Timeout(e.opTimeout)),
               Success(Stat, e.endpoint, 0), Duration(Stat, e.endpoint, Timeout(e.opTimeout)),
               Success(Remove, e.endpoint, 0), Duration(Remove, e.endpoint, Timeout(e.opTimeout))])
      + (if !e.skipmakedeletebucket
         then [Success(RemoveBucket, e.endpoint, SuccessValue(s.removeBucket)), Duration(RemoveBucket, e.endpoint, Measured)]
         else [])
  {
    var p := ObjectPlan(e, s);
    var last := RemoveBucketPlan(e, s);
    assert Samples(e, last) ==
      if !e.skipmakedeletebucket
      then [Success(RemoveBucket, e.endpoint, SuccessValue(s.removeBucket)), Duration(RemoveBucket, e.endpoint, Measured)]
      else [];
    var q := p.next.next.next;
    assert Samples(e, q) == StepSamples(e, q.step) + Samples(e, last);
    assert Samples(e, p.next.next) == StepSamples(e, p.next.next.step) + Samples(e, q);
    assert Samples(e, p.next) == StepSamples(e, p.next.step) + Samples(e, p.next.next);
  }

  /** A run that reaches put emits the listing pair, the makebucket pair when it creates the bucket, then the samples from put on. */
  lemma TraceFromPut(e: Exporter, s: Storage)
    requires ReachesPut(e, s)
    ensures Trace(e, s) ==
      [Success(ListBuckets, e.endpoint, 1), Duration(ListBuckets, e.endpoint, Measured)]
      + (if MakesBucket(e, s.listBuckets.value)
         then [Success(MakeBucket, e.endpoint, 1), Duration(MakeBucket, e.endpoint, Measured)] else [])
      + Samples(e, ObjectPlan(e, s))
    ensures Invoked(e, s) ==
      [ListBuckets] + (if MakesBucket(e, s.listBuckets.value) then [MakeBucket] else []) + Calls(ObjectPlan(e, s))
  {
    var p := RunPlan(e, s);
    assert Samples(e, p) == StepSamples(e, p.step) + Samples(e, p.next);
    assert Calls(p) == [ListBuckets] + Calls(p.next);
    if MakesBucket(e, s.listBuckets.value) {
      assert Samples(e, p.next) == StepSamples(e, p.next.step) + Samples(e, ObjectPlan(e, s));
      assert Calls(p.next) == [MakeBucket] + Calls(ObjectPlan(e, s));
    }
  }

  /** The index in the trace of put's pair. */
  ghost function PutIndex(e: Exporter, s: Storage): nat
    requires s.listBuckets.Ok?
  {
    if MakesBucket(e, s.listBuckets.value) then 4 else 2
  }

  /**
   * When put succeeds, get, stat and remove are each called and measured
   * right after it, in that order, whatever the others return.
   */
  lemma PutSucceeded(e: Exporter, s: Storage)
    requires ReachesPut(e, s) && s.put.None?
    ensures var j := PutIndex(e, s);
      && |Trace(e, s)| >= j + 8
      && Trace(e, s)[j..j + 8] ==
        [Success(Put, e.endpoint, 1), Duration(Put, e.endpoint, Measured),
         Success(Get, e.endpoint, SuccessValue(s.get)), Duration(Get, e.endpoint, Measured),
         Success(Stat, e.endpoint, SuccessValue(s.stat)), Duration(Stat, e.endpoint, Measured),
         Success(Remove, e.endpoint, SuccessValue(s.remove)), Duration(Remove, e.endpoint, Measured)]
      && |Invoked(e, s)| >= j / 2 + 4
      && Invoked(e, s)[j / 2..j / 2 + 4] == [Put, Get, Stat, Remove]
  {
    PutSlices(e, s);
    ObjectPlanSamples(e, s);
    ObjectPlanSteps(e, s);
    var j := PutIndex(e, s);
    assert Trace(e, s)[j..j + 8] == Trace(e, s)[j..][..8];
    assert Invoked(e, s)[j / 2..] == Calls(ObjectPlan(e, s));
  }

  /**
   * When put fails, get, stat and remove are not called; right after put's
   * pair come their sentinels, each a zero success and the timeout as duration.
   */
  lemma PutFailed(e: Exporter, s: Storage)
    requires ReachesPut(e, s) && s.put.Some?
    ensures var j := PutIndex(e, s);
      && |Trace(e, s)| >= j + 8
      && Trace(e, s)[j..j + 8] ==
        [Success(Put, e.endpoint, 0), Duration(Put, e.endpoint, Measured),
         Success(Get, e.endpoint, 0), Duration(Get, e.endpoint, Timeout(e.opTimeout)),
         Success(Stat, e.endpoint, 0), Duration(Stat, e.endpoint, Timeout(e.opTimeout)),
         Success(Remove, e.endpoint, 0), Duration(Remove, e.endpoint, Timeout(e.opTimeout))]
    ensures |Invoked(e, s)| > PutIndex(e, s) / 2 &&
      Invoked(e, s)[PutIndex(e, s) / 2..] == [Put] + (if !e.skipmakedeletebucket then [RemoveBucket] else [])
    ensures Get !in Invoked(e, s) && Stat !in Invoked(e, s) && Remove !in Invoked(e, s)
  {
    PutSlices(e, s);
    ObjectPlanSamples(e, s);
    var j := PutIndex(e, s);
    assert Trace(e, s)[j..j + 8] == Trace(e, s)[j..][..8];
    TraceFromPut(e, s);
    ObjectPlanSteps(e, s);
    var cpre := [ListBuckets] + (if MakesBucket(e, s.listBuckets.value) then [MakeBucket] else []);
    var rest := [Put] + (if !e.skipmakedeletebucket then [RemoveBucket] else []);
    assert Invoked(e, s) == cpre + rest;
    assert Get !in cpre && Get !in rest && Stat !in cpre && Stat !in rest && Remove !in cpre && Remove !in rest;
  }

  /** The samples and calls from put's position on are those from put on. */
  lemma PutSlices(e: Exporter, s: Storage)
    requires ReachesPut(e, s)
    ensures var j := PutIndex(e, s);
      && |Trace(e, s)| == j + |Samples(e, ObjectPlan(e, s))|
      && Trace(e, s)[j..] == Samples(e, ObjectPlan(e, s))
      && |Invoked(e, s)| == j / 2 + |Calls(ObjectPlan(e, s))|
      && Invoked(e, s)[j / 2..] == Calls(ObjectPlan(e, s))
  {
    TraceFromPut(e, s);
    var pre := [Success(ListBuckets, e.endpoint, 1), Duration(ListBuckets, e.endpoint, Measured)]
      + (if MakesBucket(e, s.listBuckets.value)
         then [Success(MakeBucket, e.endpoint, 1), Duration(MakeBucket, e.endpoint, Measured)] else []);
    assert |pre| == PutIndex(e, s);
    assert (pre + Samples(e, ObjectPlan(e, s)))[|pre|..] == Samples(e, ObjectPlan(e, s));
    var cpre := [ListBuckets] + (if MakesBucket(e, s.listBuckets.value) then [MakeBucket] else []);
    assert (cpre + Calls(ObjectPlan(e, s)))[|cpre|..] == Calls(ObjectPlan(e, s));
  }

  /** Put is called exactly when the run reaches it. */
  lemma PutPolicy(e: Exporter, s: Storage)
    ensures Put in Invoked(e, s) <==> ReachesPut(e, s)
  {
    if s.connect.Some? {
      ConnectFailure(e, s);
    } else if s.listBuckets.Err? {
      ListBucketsFailure(e, s);
    } else if ReachesPut(e, s) {
      TraceFromPut(e, s);
      ObjectPlanSteps(e, s);
    } else {
      MakeBucketFailure(e, s);
    }
  }

  /* ---------- Bucket removal ---------- */

  /** Bucket removal is called exactly when the run reaches put and the lifecycle is not skipped. */
  lemma RemoveBucketPolicy(e: Exporter, s: Storage)
    ensures RemoveBucket in Invoked(e, s) <==> ReachesPut(e, s) && !e.skipmakedeletebucket
  {
    if s.connect.Some? {
      ConnectFailure(e, s);
    } else if s.listBuckets.Err? {
      ListBucketsFailure(e, s);
    } else if ReachesPut(e, s) {
      TraceFromPut(e, s);
      ObjectPlanSteps(e, s);
      var cpre := [ListBuckets] + (if MakesBucket(e, s.listBuckets.value) then [MakeBucket] else []);
      assert RemoveBucket !in cpre;
      assert Invoked(e, s) == cpre + Calls(ObjectPlan(e, s));
    } else {
      MakeBucketFailure(e, s);
    }
  }

  /**
   * A run that reaches put ends with bucket removal, its call last and its
   * pair the last two samples, unless the lifecycle is skipped; then it
   * ends with remove's pair.
   */
  lemma RemoveBucketLast(e: Exporter, s: Storage)
    requires ReachesPut(e, s)
    ensures var t := Trace(e, s);
      var c := Invoked(e, s);
      && |t| == PutIndex(e, s) + 8 + (if e.skipmakedeletebucket then 0 else 2)
      && |c| >= 1
      && (!e.skipmakedeletebucket ==>
            && c[|c| - 1] == RemoveBucket
            && t[|t| - 2] == Success(RemoveBucket, e.endpoint, SuccessValue(s.removeBucket))
            && t[|t| - 1] == Duration(RemoveBucket, e.endpoint, Measured))
      && (e.skipmakedeletebucket ==> t[|t| - 2].op == Remove)
  {
    PutSlices(e, s);
    ObjectPlanSamples(e, s);
    ObjectPlanSteps(e, s);
    var t := Trace(e, s);
    var c := Invoked(e, s);
    var j := PutIndex(e, s);
    var o := Samples(e, ObjectPlan(e, s));
    assert t[|t| - 2] == o[|o| - 2] && t[|t| - 1] == o[|o| - 1] by {
      assert t[j..] == o;
    }
    assert c[|c| - 1] == Calls(ObjectPlan(e, s))[|Calls(ObjectPlan(e, s))| - 1] by {
      assert c[j / 2..] == Calls(ObjectPlan(e, s));
    }
  }

  /* ---------- Skipping the bucket lifecycle ---------- */

  /**
   * With the lifecycle skipped, a listed bucket is neither created nor
   * removed and no sample reports on either; an unlisted one is created
   * but not removed.
   */
  lemma SkipLifecycle(e: Exporter, s: Storage)
    requires s.connect.None? && s.listBuckets.Ok? && e.skipmakedeletebucket
    ensures Found(s.listBuckets.value, e.bucket) ==>
      forall i :: 0 <= i < |Trace(e, s)| ==> Trace(e, s)[i].op != MakeBucket && Trace(e, s)[i].op != RemoveBucket
    ensures !Found(s.listBuckets.value, e.bucket) ==>
      MakeBucket in Invoked(e, s) && RemoveBucket !in Invoked(e, s)
  {
    MakeBucketPolicy(e, s);
    RemoveBucketPolicy(e, s);
    if Found(s.listBuckets.value, e.bucket) {
      TraceFromPut(e, s);
      ObjectPlanSamples(e, s);
    }
  }

  /* ---------- Order of the calls ---------- */

  /** The calls of `p` have strictly increasing rank, all above `r`. */
  predicate CallsAbove(p: Plan, r: int) {
    match p
    case End => true
    case Then(st, next) =>
      if st.Call? then r < Rank(st.op) && CallsAbove(next, Rank(st.op)) else CallsAbove(next, r)
  }

  lemma {:induction false} CallsAscending(p: Plan, r: int)
    requires CallsAbove(p, r)
    ensures forall i :: 0 <= i < |Calls(p)| ==> r < Rank(Calls(p)[i])
    ensures forall i, j :: 0 <= i < j < |Calls(p)| ==> Rank(Calls(p)[i]) < Rank(Calls(p)[j])
  {
    match p
    case End =>
    case Then(st, next) =>
      if st.Call? {
        CallsAscending(next, Rank(st.op));
        assert Calls(p) == [st.op] + Calls(next);
      } else {
        CallsAscending(next, r);
        assert Calls(p) == Calls(next);
      }
  }

  /** Every run's plan calls in rank order. */
  lemma PlanCallsAbove(e: Exporter, s: Storage, lbl: Op)
    ensures CallsAbove(PlanWith(e, s, lbl), 0)
  {
    var o := ObjectPlan(e, s);
    if s.put.None? {
      assert CallsAbove(RemoveBucketPlan(e, s), Rank(Remove));
      assert CallsAbove(o.next.next.next, Rank(Stat));
      assert CallsAbove(o.next.next, Rank(Get));
    } else {
      assert CallsAbove(RemoveBucketPlan(e, s), Rank(Put));
      assert CallsAbove(o.next.next.next, Rank(Put));
      assert CallsAbove(o.next.next, Rank(Put));
    }
    assert CallsAbove(o.next, Rank(Put));
    assert CallsAbove(o, Rank(MakeBucket));
    var f := ListFailurePlan(e, lbl);
    if !e.skipmakedeletebucket {
      f := f.next.next;
    }
    assert CallsAbove(f.next.next, Rank(ListBuckets));
  }

  /**
   * A run calls the storage in the canonical order listbuckets, makebucket,
   * put, get, stat, remove, removebucket, each at most once, and never
   * counts client construction as a call.
   */
  lemma InvokedInCanonicalOrder(e: Exporter, s: Storage)
    ensures forall i, j :: 0 <= i < j < |Invoked(e, s)| ==> Rank(Invoked(e, s)[i]) < Rank(Invoked(e, s)[j])
    ensures Connect !in Invoked(e, s)
  {
    PlanCallsAbove(e, s, MakeBucket);
    CallsAscending(RunPlan(e, s), 0);
  }

  /* ---------- Distinct series ---------- */

  /** Two samples belong to the same series: same metric, same operation label, same endpoint label. */
  predicate SameSeries(a: Sample, b: Sample) {
    a.Success? == b.Success? && a.op == b.op && a.endpoint == b.endpoint
  }

  /** No two samples belong to the same series, as a metrics registry demands of one collection. */
  predicate DistinctSeries(t: seq<Sample>) {
    forall i, j :: 0 <= i < j < |t| ==> !SameSeries(t[i], t[j])
  }

  /** No operation is reported by two steps of `p`, nor by a step of `p` and one in `used`. */
  predicate Fresh(p: Plan, used: set<Op>) {
    match p
    case End => true
    case Then(st, next) => StepOp(st) !in used && Fresh(next, used + {StepOp(st)})
  }

  /** Every sentinel of `p` labels its duration with its own operation. */
  predicate Honest(p: Plan) {
    match p
    case End => true
    case Then(st, next) => (st.Skipped? ==> st.durationLabel == st.op) && Honest(next)
  }

  lemma DistinctAppend(a: seq<Sample>, b: seq<Sample>)
    requires DistinctSeries(a) && DistinctSeries(b)
    requires forall i, j :: 0 <= i < |a| && 0 <= j < |b| ==> !SameSeries(a[i], b[j])
    ensures DistinctSeries(a + b)
  {
    forall i, j | 0 <= i < j < |a + b| ensures !SameSeries((a + b)[i], (a + b)[j]) {
      if j < |a| {
      } else if i < |a| {
        assert (a + b)[j] == b[j - |a|];
      } else {
        assert (a + b)[i] == b[i - |a|] && (a + b)[j] == b[j - |a|];
      }
    }
  }

  /** A plan whose steps report on distinct operations and whose sentinels are honestly labelled emits distinct series. */
  lemma {:induction false} FreshDistinct(e: Exporter, p: Plan, used: set<Op>)
    requires Fresh(p, used) && Honest(p)
    ensures forall i :: 0 <= i < |Samples(e, p)| ==> Samples(e, p)[i].op !in used
    ensures DistinctSeries(Samples(e, p))
  {
    match p
    case End =>
    case Then(st, next) =>
      FreshDistinct(e, next, used + {StepOp(st)});
      var a := StepSamples(e, st);
      var b := Samples(e, next);
      assert forall i :: 0 <= i < |a| ==> a[i].op == StepOp(st);
      assert DistinctSeries(a);
      DistinctAppend(a, b);
      forall i | 0 <= i < |a + b| ensures (a + b)[i].op !in used {
        if i >= |a| {
          assert (a + b)[i] == b[i - |a|];
        }
      }
  }

  /** From put on, each operation is reported once, and neither listbuckets nor makebucket again. */
  lemma ObjectPlanFresh(e: Exporter, s: Storage)
    ensures Fresh(ObjectPlan(e, s), {ListBuckets, MakeBucket})
    ensures Fresh(ObjectPlan(e, s), {ListBuckets})
  {
    var o := ObjectPlan(e, s);
    var q := o.next.next.next;
    assert StepOp(o.next.step) == Get && StepOp(o.next.next.step) == Stat && StepOp(q.step) == Remove;
    assert Fresh(RemoveBucketPlan(e, s), {ListBuckets, MakeBucket, Put, Get, Stat, Remove});
    assert {ListBuckets, MakeBucket, Put, Get, Stat} + {Remove} == {ListBuckets, MakeBucket, Put, Get, Stat, Remove};
    assert Fresh(q, {ListBuckets, MakeBucket, Put, Get, Stat});
    assert {ListBuckets, MakeBucket, Put, Get} + {Stat} == {ListBuckets, MakeBucket, Put, Get, Stat};
    assert Fresh(o.next.next, {ListBuckets, MakeBucket, Put, Get});
    assert {ListBuckets, MakeBucket, Put} + {Get} == {ListBuckets, MakeBucket, Put, Get};
    assert Fresh(o.next, {ListBuckets, MakeBucket, Put});
    assert {ListBuckets, MakeBucket} + {Put} == {ListBuckets, MakeBucket, Put};
    assert Fresh(RemoveBucketPlan(e, s), {ListBuckets, Put, Get, Stat, Remove});
    assert {ListBuckets, Put, Get, Stat} + {Remove} == {ListBuckets, Put, Get, Stat, Remove};
    assert Fresh(q, {ListBuckets, Put, Get, Stat});
    assert {ListBuckets, Put, Get} + {Stat} == {ListBuckets, Put, Get, Stat};
    assert Fresh(o.next.next, {ListBuckets, Put, Get});
    assert {ListBuckets, Put} + {Get} == {ListBuckets, Put, Get};
    assert Fresh(o.next, {ListBuckets, Put});
    assert {ListBuckets} + {Put} == {ListBuckets, Put};
  }

  /** After a failed listing, each operation is reported once, and listbuckets not again. */
  lemma ListFailureFresh(e: Exporter, lbl: Op)
    ensures Fresh(ListFailurePlan(e, lbl), {ListBuckets})
  {
    var f := ListFailurePlan(e, lbl);
    var objects := if !e.skipmakedeletebucket then f.next.next else f;
    var before := if !e.skipmakedeletebucket then {ListBuckets, MakeBucket, RemoveBucket} else {ListBuckets};
    assert before + {Put} + {Get} + {Stat} + {Remove} == before + {Put, Get, Stat, Remove};
    assert Fresh(objects.next.next.next, before + {Put} + {Get} + {Stat});
    assert Fresh(objects, before);
    if !e.skipmakedeletebucket {
      assert {ListBuckets} + {MakeBucket} + {RemoveBucket} == before;
      assert Fresh(f.next, {ListBuckets} + {MakeBucket});
    }
  }

  /** Every run's plan reports each operation at most once. */
  lemma PlanFresh(e: Exporter, s: Storage, lbl: Op)
    ensures Fresh(PlanWith(e, s, lbl), {})
  {
    ObjectPlanFresh(e, s);
    ListFailureFresh(e, lbl);
    assert {} + {ListBuckets} == {ListBuckets};
    assert {ListBuckets} + {MakeBucket} == {ListBuckets, MakeBucket};
  }

  /** The intended labelling makes every run's plan honest; the written one only fails after a listing failure without the skip. */
  lemma PlanHonest(e: Exporter, s: Storage, lbl: Op)
    ensures Honest(PlanWith(e, s, lbl)) <==>
      lbl == RemoveBucket || !(s.connect.None? && s.listBuckets.Err? && !e.skipmakedeletebucket)
  {
    var o := ObjectPlan(e, s);
    assert Honest(o.next.next.next);
    assert Honest(o);
    var f := ListFailurePlan(e, lbl);
    var objects := if !e.skipmakedeletebucket then f.next.next else f;
    assert Honest(objects.next.next);
  }

  /** With removebucket's sentinel duration labelled removebucket, no run emits two samples of one series. */
  lemma IntendedSeriesDistinct(e: Exporter, s: Storage)
    ensures DistinctSeries(IntendedTrace(e, s))
  {
    PlanFresh(e, s, RemoveBucket);
    PlanHonest(e, s, RemoveBucket);
    FreshDistinct(e, PlanWith(e, s, RemoveBucket), {});
  }

  /**
   * The intended labelling changes one sample of one kind of run: sample 5
   * of a connected run whose listing fails without the skip becomes a
   * removebucket duration. Every other trace, and every run's calls, are
   * those of the code as written.
   */
  lemma IntendedTraceRelabels(e: Exporter, s: Storage)
    ensures s.connect.None? && s.listBuckets.Err? && !e.skipmakedeletebucket ==> |Trace(e, s)| == 14
    ensures IntendedTrace(e, s) ==
      if s.connect.None? && s.listBuckets.Err? && !e.skipmakedeletebucket
      then Trace(e, s)[5 := Duration(RemoveBucket, e.endpoint, Timeout(e.opTimeout))]
      else Trace(e, s)
    ensures Calls(PlanWith(e, s, RemoveBucket)) == Invoked(e, s)
  {
    if s.connect.None? && s.listBuckets.Err? {
      var p := PlanWith(e, s, RemoveBucket);
      ListBucketsFailure(e, s);
      ListFailureSamples(e, RemoveBucket);
      ListFailureSteps(e, RemoveBucket);
      assert IntendedTrace(e, s) == StepSamples(e, p.step) + Samples(e, p.next);
      assert Calls(p) == [ListBuckets] + Calls(p.next);
    } else {
      assert PlanWith(e, s, RemoveBucket) == RunPlan(e, s);
    }
  }

  /**
   * As written, a run emits two samples of one series exactly when it
   * connects, the listing fails and the lifecycle is not skipped: the
   * makebucket and removebucket sentinels both emit a makebucket duration.
   */
  lemma TraceSeriesDistinctIff(e: Exporter, s: Storage)
    ensures DistinctSeries(Trace(e, s)) <==> !(s.connect.None? && s.listBuckets.Err? && !e.skipmakedeletebucket)
  {
    if s.connect.None? && s.listBuckets.Err? && !e.skipmakedeletebucket {
      ListFailureOrder(e, s);
      assert SameSeries(Trace(e, s)[3], Trace(e, s)[5]);
    } else {
      PlanFresh(e, s, MakeBucket);
      PlanHonest(e, s, MakeBucket);
      FreshDistinct(e, RunPlan(e, s), {});
    }
  }
}
