/**
 The storage upload pipeline: a dispatcher forms batches, a batch probes and
 transcodes its jobs, every transcoded job is committed by its own task.  A
 job owns its source file, its staged output and its reply channel, so the
 state keeps one record per job; a run is any interleaving of all the tasks.
 */
module UploadPipeline {
  import opened Options

  type Job = nat
  type BatchId = nat

  // transcode.rs MIN_UPLOAD_DURATION_SECS
  const MIN_UPLOAD_DURATION_SECS := 30.0

  datatype Config = Config(
    tolerance: real,         // duration_tolerance_secs
    maxDuration: real,       // max_upload_duration_secs, no limit unless positive
    retries: nat,            // upload_retries
    batchSize: nat,          // transcode_batch_size
    maxTranscodes: nat,
    bus: bool,               // the bus is enabled
    baseUrl: bool            // event_base_url is not empty
  )

  // ------------------------------------------------------------ the duration gate

  datatype Reason = TooShort | TooLong | Mismatch

  function Abs(x: real): real { if x < 0.0 then -x else x }

  function Gate(c: Config, expected: Option<real>, secs: real): Option<Reason> {
    if expected.Some? && Abs(secs - expected.value) > c.tolerance then Some(Mismatch)
    else if secs > 0.0 && secs <= MIN_UPLOAD_DURATION_SECS then Some(TooShort)
    else if c.maxDuration > 0.0 && secs > c.maxDuration then Some(TooLong)
    else None
  }

  // What a file in storage is allowed to last.
  predicate Acceptable(c: Config, expected: Option<real>, secs: real) {
    && secs > MIN_UPLOAD_DURATION_SECS
    && (c.maxDuration > 0.0 ==> secs <= c.maxDuration)
    && (expected.Some? ==> expected.value - c.tolerance <= secs <= expected.value + c.tolerance)
  }

  /** A readable output passes the gate exactly when storage may hold it; an unreadable one never may. */
  lemma GateIsExact(c: Config, expected: Option<real>, secs: real)
    ensures Gate(c, expected, secs).None? && secs > 0.0 <==> Acceptable(c, expected, secs)
  {
  }

  // ------------------------------------------------------------ one job

  datatype Answer = Done(secs: real) | Gated(reason: Reason) | Ffmpeg | Backend

  datatype Event =
    | Committed(secs: real)
    | Uploaded
    | Rejected(reason: Reason, secs: real)
    | Reply(answer: Answer)

  datatype Stage =
    | Queued                          // in the dispatcher's channel
    | Collected                       // in the batch being formed
    | Judging(batch: BatchId)         // probed next
    | Accepted(batch: BatchId)        // waits for the batch ffmpeg
    | Retrying                        // per-file ffmpeg
    | Encoded                         // commit task spawned
    | Writing(attempt: nat, secs: real)
    | Stored(secs: real)              // the writer answered Ok
    | Unstored                        // the writer answered with an error
    | Answered

  datatype JobState = JobState(
    expected: Option<real>,
    named: bool,       // the filename ends in a track id
    stage: Stage,
    source: bool,      // the uploaded file is on disk
    staged: bool,      // the transcoded file is on disk
    log: seq<Event>
  )

  // One ffmpeg call: done, failed with its outputs removed again, or never started.
  datatype Encoder = EncodeOk | EncodeFails | NotStarted

  datatype CommitOutcome = CommitOk | NotFound | OtherError(stagedLeft: bool)

  datatype JobAct =
    | Probe(secs: Option<real>)            // source probe and gate
    | EncodeAlone(run: Encoder)            // per-file fallback
    | ProbeOutput(secs: Option<real>)      // second gate
    | TryCommit(outcome: CommitOutcome)    // one writer attempt
    | Finish                               // after commit_single

  predicate JobMay(s: JobState, a: JobAct) {
    match a
    case Probe(_) => s.stage.Judging?
    case EncodeAlone(_) => s.stage.Retrying?
    case ProbeOutput(_) => s.stage.Encoded?
    case TryCommit(_) => s.stage.Writing?
    case Finish => s.stage.Stored? || s.stage.Unstored?
  }

  // Nothing but the answer: each path removes its own files before.
  function Send(s: JobState, answer: Answer): JobState {
    s.(stage := Answered, log := s.log + [Reply(answer)])
  }

  function RemoveSource(s: JobState): JobState { s.(source := false) }

  function RemoveOutput(s: JobState): JobState { s.(staged := false) }

  function Publish(s: JobState, allowed: bool, e: Event): JobState {
    if allowed && s.named then s.(log := s.log + [e]) else s
  }

  function Reject(c: Config, s: JobState, reason: Reason, secs: real): JobState {
    Send(Publish(RemoveSource(s), c.bus, Rejected(reason, secs)), Gated(reason))
  }

  function RunEncoder(s: JobState, run: Encoder): JobState {
    match run
    case EncodeOk => s.(staged := true)
    case EncodeFails => RemoveOutput(s.(staged := true))
    case NotStarted => s
  }

  function JobStep(c: Config, s: JobState, a: JobAct): JobState
    requires JobMay(s, a)
  {
    match a
    case Probe(None) => s.(stage := Accepted(s.stage.batch))
    case Probe(Some(secs)) =>
      (match Gate(c, s.expected, secs)
       case Some(reason) => Reject(c, s, reason, secs)
       case None => s.(stage := Accepted(s.stage.batch)))
    case EncodeAlone(run) =>
      var t := RunEncoder(s, run);
      if run.EncodeOk? then t.(stage := Encoded) else Send(RemoveSource(t), Ffmpeg)
    case ProbeOutput(probed) =>
      if probed.None? || probed.value <= 0.0 then Send(RemoveSource(RemoveOutput(s)), Ffmpeg)
      else
        (match Gate(c, s.expected, probed.value)
         case Some(reason) => Reject(c, RemoveOutput(s), reason, probed.value)
         case None => s.(stage := Writing(0, probed.value)))
    case TryCommit(CommitOk) =>
      // the backend moves or removes the output it committed
      RemoveOutput(s).(stage := Stored(s.stage.secs), log := s.log + [Committed(s.stage.secs)])
    case TryCommit(NotFound) => s.(stage := Unstored)
    case TryCommit(OtherError(left)) =>
      var t := if left then s else RemoveOutput(s);
      var attempt := s.stage.attempt + 1;
      if attempt >= c.retries + 1 then RemoveOutput(t).(stage := Unstored)
      else t.(stage := Writing(attempt, s.stage.secs))
    case Finish =>
      if s.stage.Stored? then
        Send(Publish(RemoveSource(s), c.bus && c.baseUrl, Uploaded), Done(s.stage.secs))
      else Send(RemoveSource(RemoveOutput(s)), Backend)
  }

  // The batch ffmpeg, seen by one accepted job.
  function Encode(s: JobState, run: Encoder, alone: bool): JobState {
    var t := RunEncoder(s, run);
    if run.EncodeOk? then t.(stage := Encoded)
    else if alone then Send(RemoveSource(t), Ffmpeg)
    else t.(stage := Retrying)
  }

  // ------------------------------------------------------------ the pipeline

  // `order` lists the jobs as they were submitted.
  datatype State = State(
    jobs: map<Job, JobState>, order: seq<Job>, active: set<BatchId>, nextBatch: BatchId)

  datatype Action =
    | Submit(j: Job, expected: Option<real>, named: bool)
    | Receive(j: Job)                    // rx.recv in dispatcher_loop
    | Launch                             // permit acquired, run_batch spawned
    | OneJob(j: Job, act: JobAct)
    | BatchEncode(b: BatchId, run: Encoder)  // multi-input ffmpeg
    | BatchEmpty(b: BatchId)             // every job of the batch was rejected

  function In(s: State, stage: Stage): set<Job> {
    set j | j in s.jobs && s.jobs[j].stage == stage
  }

  predicate Enabled(c: Config, s: State, a: Action) {
    match a
    case Submit(j, _, _) => j !in s.jobs
    case Receive(j) =>
      j in s.jobs && s.jobs[j].stage == Queued && (In(s, Collected) == {} || |In(s, Collected)| < c.batchSize)
    case Launch =>
      In(s, Collected) != {} && (s.active == {} || |s.active| < c.maxTranscodes)
    case OneJob(j, act) => j in s.jobs && JobMay(s.jobs[j], act)
    case BatchEncode(b, _) =>
      b in s.active && In(s, Judging(b)) == {} && In(s, Accepted(b)) != {}
    case BatchEmpty(b) =>
      b in s.active && In(s, Judging(b)) == {} && In(s, Accepted(b)) == {}
  }

  // What an action makes of one job.
  function Effect(c: Config, s: State, a: Action, j: Job): JobState
    requires Enabled(c, s, a) && j in s.jobs
  {
    var job := s.jobs[j];
    match a
    case Receive(k) => if j == k then job.(stage := Collected) else job
    case Launch => if job.stage == Collected then job.(stage := Judging(s.nextBatch)) else job
    case OneJob(k, act) => if j == k then JobStep(c, job, act) else job
    case BatchEncode(b, run) =>
      if job.stage == Accepted(b) then Encode(job, run, |In(s, Accepted(b))| == 1) else job
    case _ => job
  }

  function Step(c: Config, s: State, a: Action): State
    requires Enabled(c, s, a)
  {
    var jobs := map j | j in s.jobs :: Effect(c, s, a, j);
    match a
    case Submit(j, expected, named) =>
      s.(jobs := jobs[j := JobState(expected, named, Queued, true, false, [])], order := s.order + [j])
    case Launch => State(jobs, s.order, s.active + {s.nextBatch}, s.nextBatch + 1)
    case BatchEncode(b, _) => s.(jobs := jobs, active := s.active - {b})
    case BatchEmpty(b) => s.(jobs := jobs, active := s.active - {b})
    case _ => s.(jobs := jobs)
  }

  const INITIAL := State(map[], [], {}, 0)

  function Run(c: Config, actions: seq<Action>): Option<State> {
    if actions == [] then Some(INITIAL) else
    match Run(c, actions[..|actions| - 1])
    case None => None
    case Some(s) =>
      var a := actions[|actions| - 1];
      if Enabled(c, s, a) then Some(Step(c, s, a)) else None
  }

  // ------------------------------------------------------------ what every job is promised

  function Replies(log: seq<Event>): nat {
    if log == [] then 0 else Replies(log[1..]) + if log[0].Reply? then 1 else 0
  }

  predicate Promise(c: Config, s: JobState) {
    && Replies(s.log) == (if s.stage.Answered? then 1 else 0)
    && (s.stage.Answered? ==> !s.source && !s.staged)
    && (!s.stage.Answered? ==> s.source)
    && (Uploaded in s.log ==>
          && c.bus && c.baseUrl && s.named
          && exists i, k :: 0 <= i < k < |s.log| && s.log[i].Committed? && s.log[k] == Uploaded)
    && (forall e | e in s.log && e.Committed? ::
          Acceptable(c, s.expected, e.secs)
          && (s.stage.Answered? ==> Reply(Done(e.secs)) in s.log)
          && (c.bus && c.baseUrl && s.named && s.stage.Answered? ==> Uploaded in s.log))
    && (forall e | e in s.log && e.Reply? && e.answer.Done? :: Committed(e.answer.secs) in s.log)
    && (forall e | e in s.log && e.Reply? && e.answer.Gated? ::
          (exists r :: r in s.log && r.Rejected? && r.reason == e.answer.reason) <==> c.bus && s.named)
    && (forall e | e in s.log && e.Rejected? ::
          && Gate(c, s.expected, e.secs) == Some(e.reason)
          && Reply(Gated(e.reason)) in s.log
          && Uploaded !in s.log
          && forall d | d in s.log :: !d.Committed?)
  }

  // ------------------------------------------------------------ the invariant behind it

  predicate Ended(c: Config, s: JobState) {
    var log := s.log;
    || log == [Reply(Ffmpeg)]
    || log == [Reply(Backend)]
    || (|log| == 1 && !(c.bus && s.named) && log[0].Reply? && log[0].answer.Gated?)
    || (|log| == 2 && c.bus && s.named
        && log[0].Rejected? && Gate(c, s.expected, log[0].secs) == Some(log[0].reason)
        && log[1] == Reply(Gated(log[0].reason)))
    || (|log| == 2 && !(c.bus && c.baseUrl && s.named)
        && log[0].Committed? && Acceptable(c, s.expected, log[0].secs) && log[1] == Reply(Done(log[0].secs)))
    || (|log| == 3 && c.bus && c.baseUrl && s.named
        && log[0].Committed? && Acceptable(c, s.expected, log[0].secs)
        && log[1] == Uploaded && log[2] == Reply(Done(log[0].secs)))
  }

  predicate JobInv(c: Config, s: JobState) {
    && (s.source <==> !s.stage.Answered?)
    && (s.staged ==> s.stage.Encoded? || s.stage.Writing? || s.stage.Unstored?)
    && (match s.stage
        case Writing(attempt, secs) =>
          s.log == [] && attempt <= c.retries && Acceptable(c, s.expected, secs)
        case Stored(secs) => s.log == [Committed(secs)] && Acceptable(c, s.expected, secs)
        case Answered => Ended(c, s)
        case _ => s.log == [])
  }

  lemma RepliesOfShort(log: seq<Event>)
    ensures |log| == 1 ==> Replies(log) == (if log[0].Reply? then 1 else 0)
    ensures |log| == 2 ==> Replies(log) == (if log[0].Reply? then 1 else 0) + (if log[1].Reply? then 1 else 0)
    ensures |log| == 3 && !log[0].Reply? && !log[1].Reply? ==> Replies(log) == (if log[2].Reply? then 1 else 0)
  {
    if |log| > 1 { RepliesOfShort(log[1..]); }
  }

  lemma CommittedKeepsPromise(c: Config, s: JobState)
    requires JobInv(c, s) && s.stage.Answered? && |s.log| == 3
    ensures Promise(c, s)
  {
    RepliesOfShort(s.log);
    assert s.log[0].Committed? && s.log[1] == Uploaded;
  }

  lemma JobInvKeepsPromise(c: Config, s: JobState)
    requires JobInv(c, s)
    ensures Promise(c, s)
  {
    if |s.log| == 3 {
      CommittedKeepsPromise(c, s);
    } else {
      RepliesOfShort(s.log);
    }
  }

  // A gate that fails ends the job; the output, if there was one, must be gone by then.
  lemma RejectEnds(c: Config, s: JobState, reason: Reason, secs: real)
    requires s.log == [] && !s.staged && Gate(c, s.expected, secs) == Some(reason)
    ensures JobInv(c, Reject(c, s, reason, secs))
  {
  }

  lemma FinishKeepsInv(c: Config, s: JobState)
    requires JobInv(c, s) && JobMay(s, Finish)
    ensures JobInv(c, JobStep(c, s, Finish))
  {
  }

  lemma WriterKeepsInv(c: Config, s: JobState, outcome: CommitOutcome)
    requires JobInv(c, s) && s.stage.Writing?
    ensures JobInv(c, JobStep(c, s, TryCommit(outcome)))
  {
  }

  lemma JobStepKeepsInv(c: Config, s: JobState, a: JobAct)
    requires JobInv(c, s) && JobMay(s, a)
    ensures JobInv(c, JobStep(c, s, a))
  {
    match a
    case Probe(Some(secs)) =>
      var gate := Gate(c, s.expected, secs);
      if gate.Some? { RejectEnds(c, s, gate.value, secs); }
    case ProbeOutput(Some(secs)) =>
      var gate := Gate(c, s.expected, secs);
      if secs > 0.0 && gate.Some? { RejectEnds(c, RemoveOutput(s), gate.value, secs); }
    case TryCommit(outcome) => WriterKeepsInv(c, s, outcome);
    case Finish => FinishKeepsInv(c, s);
    case _ =>
  }

  lemma EncodeKeepsInv(c: Config, s: JobState, run: Encoder, alone: bool)
    requires JobInv(c, s) && s.stage.Accepted?
    ensures JobInv(c, Encode(s, run, alone))
  {
  }

  lemma EffectKeepsInv(c: Config, s: State, a: Action, j: Job)
    requires Enabled(c, s, a) && j in s.jobs && JobInv(c, s.jobs[j])
    ensures JobInv(c, Effect(c, s, a, j))
  {
    match a
    case OneJob(k, act) =>
      if j == k { JobStepKeepsInv(c, s.jobs[j], act); }
    case _ =>
  }

  // Batches in progress: their ids are the active ones, and permits bound them.
  predicate BatchOf(stage: Stage, b: BatchId) {
    stage == Judging(b) || stage == Accepted(b)
  }

  ghost predicate Inv(c: Config, s: State) {
    && (forall j | j in s.jobs :: JobInv(c, s.jobs[j]))
    && (forall j, b | j in s.jobs && BatchOf(s.jobs[j].stage, b) :: b in s.active)
    && (forall b | b in s.active :: b < s.nextBatch)
    && |s.active| <= (if c.maxTranscodes > 1 then c.maxTranscodes else 1)
    && (forall j :: j in s.jobs <==> j in s.order)
  }

  lemma StepKeepsInv(c: Config, s: State, a: Action)
    requires Inv(c, s) && Enabled(c, s, a)
    ensures Inv(c, Step(c, s, a))
  {
    var t := Step(c, s, a);
    forall j | j in t.jobs ensures JobInv(c, t.jobs[j]) {
      if j in s.jobs { EffectKeepsInv(c, s, a, j); }
    }
    forall j, b | j in t.jobs && BatchOf(t.jobs[j].stage, b) ensures b in t.active {
      StepKeepsBatch(c, s, a, j, b);
    }
  }

  lemma StepKeepsBatch(c: Config, s: State, a: Action, j: Job, b: BatchId)
    requires Inv(c, s) && Enabled(c, s, a)
    requires j in Step(c, s, a).jobs && BatchOf(Step(c, s, a).jobs[j].stage, b)
    ensures b in Step(c, s, a).active
  {
    if j in s.jobs {
      assert Step(c, s, a).jobs[j] == Effect(c, s, a, j);
      if a.BatchEncode? || a.BatchEmpty? {
        assert j !in In(s, Judging(a.b)) && (s.jobs[j].stage == Accepted(a.b) ==> j in In(s, Accepted(a.b)));
      }
      if !a.Launch? {
        EffectStaysInBatch(c, s, a, j, b);
      }
    }
  }

  lemma EffectStaysInBatch(c: Config, s: State, a: Action, j: Job, b: BatchId)
    requires Enabled(c, s, a) && !a.Launch? && j in s.jobs && BatchOf(Effect(c, s, a, j).stage, b)
    ensures BatchOf(s.jobs[j].stage, b)
  {
  }

  lemma {:induction false} RunKeepsInv(c: Config, actions: seq<Action>)
    requires Run(c, actions).Some?
    ensures Inv(c, Run(c, actions).value)
  {
    if actions != [] {
      RunKeepsInv(c, actions[..|actions| - 1]);
      StepKeepsInv(c, Run(c, actions[..|actions| - 1]).value, actions[|actions| - 1]);
    }
  }

  /**
   Every interleaving, every probe, ffmpeg and backend outcome: each job keeps
   its promise, and no more batches run than there are permits.
   */
  lemma {:induction false} EveryJobKeepsItsPromise(c: Config, actions: seq<Action>, j: Job)
    requires Run(c, actions).Some? && j in Run(c, actions).value.jobs
    ensures Promise(c, Run(c, actions).value.jobs[j])
    ensures |Run(c, actions).value.active| <= if c.maxTranscodes > 1 then c.maxTranscodes else 1
  {
    RunKeepsInv(c, actions);
    JobInvKeepsPromise(c, Run(c, actions).value.jobs[j]);
  }

  // ------------------------------------------------------------ every job is answered

  // How many steps a job may still take part in.
  function Effort(c: Config, stage: Stage): nat {
    match stage
    case Queued => c.retries + 9
    case Collected => c.retries + 8
    case Judging(_) => c.retries + 6
    case Accepted(_) => c.retries + 5
    case Retrying => c.retries + 4
    case Encoded => c.retries + 3
    case Writing(attempt, _) => if attempt <= c.retries then c.retries + 2 - attempt else 2
    case Stored(_) => 1
    case Unstored => 1
    case Answered => 0
  }

  function TotalEffort(c: Config, jobs: map<Job, JobState>, order: seq<Job>): nat {
    if order == [] then 0 else
    var first := if order[0] in jobs then Effort(c, jobs[order[0]].stage) else 0;
    first + TotalEffort(c, jobs, order[1..])
  }

  function Remaining(c: Config, s: State): nat {
    TotalEffort(c, s.jobs, s.order) + |s.active|
  }

  lemma JobStepCosts(c: Config, s: JobState, a: JobAct)
    requires JobInv(c, s) && JobMay(s, a)
    ensures Effort(c, JobStep(c, s, a).stage) < Effort(c, s.stage)
  {
  }

  lemma EffectCosts(c: Config, s: State, a: Action, j: Job)
    requires Inv(c, s) && Enabled(c, s, a) && j in s.jobs
    ensures Effort(c, Effect(c, s, a, j).stage) <= Effort(c, s.jobs[j].stage)
    ensures a.OneJob? && a.j == j ==> Effort(c, Effect(c, s, a, j).stage) < Effort(c, s.jobs[j].stage)
    ensures a == Receive(j) ==> Effort(c, Effect(c, s, a, j).stage) < Effort(c, s.jobs[j].stage)
    ensures a.Launch? && j in In(s, Collected) ==>
              Effort(c, Effect(c, s, a, j).stage) + 2 <= Effort(c, s.jobs[j].stage)
  {
    match a
    case OneJob(k, act) =>
      if j == k { JobStepCosts(c, s.jobs[j], act); }
    case _ =>
  }

  // If no job got dearer and job k got cheaper by `gain`, so did the total.
  lemma {:induction false} TotalDrops(
      c: Config, before: map<Job, JobState>, after: map<Job, JobState>, order: seq<Job>, k: Job, gain: nat)
    requires before.Keys == after.Keys
    requires forall j | j in before :: Effort(c, after[j].stage) <= Effort(c, before[j].stage)
    requires k in before && Effort(c, after[k].stage) + gain <= Effort(c, before[k].stage)
    ensures TotalEffort(c, after, order) <= TotalEffort(c, before, order)
    ensures k in order ==> TotalEffort(c, after, order) + gain <= TotalEffort(c, before, order)
  {
    if order != [] {
      TotalDrops(c, before, after, order[1..], k, gain);
    }
  }

  lemma JobAfter(c: Config, s: State, a: Action)
    requires Enabled(c, s, a) && !a.Submit?
    ensures Step(c, s, a).jobs.Keys == s.jobs.Keys && Step(c, s, a).order == s.order
    ensures forall j | j in s.jobs :: Step(c, s, a).jobs[j] == Effect(c, s, a, j)
  {
  }

  lemma NoJobGetsDearer(c: Config, s: State, a: Action)
    requires Inv(c, s) && Enabled(c, s, a) && !a.Submit?
    ensures Step(c, s, a).jobs.Keys == s.jobs.Keys && Step(c, s, a).order == s.order
    ensures forall j | j in s.jobs :: Effort(c, Step(c, s, a).jobs[j].stage) <= Effort(c, s.jobs[j].stage)
  {
    JobAfter(c, s, a);
    forall j | j in s.jobs
      ensures Effort(c, Effect(c, s, a, j).stage) <= Effort(c, s.jobs[j].stage)
    {
      EffectCosts(c, s, a, j);
    }
  }

  // The job that pays for the step.
  function Payer(s: State, a: Action, collected: Job): Job
    requires !a.Submit? && !a.BatchEncode? && !a.BatchEmpty?
  {
    if a.Launch? then collected else a.j
  }

  /** Apart from new submissions, every step uses up some of the remaining work. */
  lemma StepsUseUpWork(c: Config, s: State, a: Action)
    requires Inv(c, s) && Enabled(c, s, a) && !a.Submit?
    ensures Remaining(c, Step(c, s, a)) < Remaining(c, s)
  {
    NoJobGetsDearer(c, s, a);
    if a.BatchEmpty? || a.BatchEncode? {
      TotalKept(c, s.jobs, Step(c, s, a).jobs, s.order);
    } else {
      var collected := if a.Launch? then (var k :| k in In(s, Collected); k) else 0;
      var k := Payer(s, a, collected);
      EffectCosts(c, s, a, k);
      TotalDrops(c, s.jobs, Step(c, s, a).jobs, s.order, k, if a.Launch? then 2 else 1);
    }
  }

  lemma {:induction false} TotalKept(
      c: Config, before: map<Job, JobState>, after: map<Job, JobState>, order: seq<Job>)
    requires before.Keys == after.Keys
    requires forall j | j in before :: Effort(c, after[j].stage) <= Effort(c, before[j].stage)
    ensures TotalEffort(c, after, order) <= TotalEffort(c, before, order)
  {
    if order != [] {
      TotalKept(c, before, after, order[1..]);
    }
  }

  /** As long as a job is unanswered, some task can go on. */
  lemma NothingIsStuck(c: Config, s: State, j: Job) returns (a: Action)
    requires Inv(c, s) && j in s.jobs && !s.jobs[j].stage.Answered?
    ensures !a.Submit? && Enabled(c, s, a)
  {
    match s.jobs[j].stage
    case Queued =>
      if In(s, Collected) == {} { a := Receive(j); } else { a := LaunchOrFinishABatch(c, s); }
    case Collected =>
      assert j in In(s, Collected);
      a := LaunchOrFinishABatch(c, s);
    case Judging(b) => a := OneJob(j, Probe(None));
    case Accepted(b) => a := FinishBatch(c, s, b);
    case Retrying => a := OneJob(j, EncodeAlone(EncodeFails));
    case Encoded => a := OneJob(j, ProbeOutput(None));
    case Writing(_, _) => a := OneJob(j, TryCommit(NotFound));
    case Stored(_) => a := OneJob(j, Finish);
    case Unstored => a := OneJob(j, Finish);
  }

  lemma LaunchOrFinishABatch(c: Config, s: State) returns (a: Action)
    requires Inv(c, s) && In(s, Collected) != {}
    ensures !a.Submit? && Enabled(c, s, a)
  {
    if s.active == {} {
      a := Launch;
    } else {
      var b :| b in s.active;
      a := FinishBatch(c, s, b);
    }
  }

  lemma FinishBatch(c: Config, s: State, b: BatchId) returns (a: Action)
    requires Inv(c, s) && b in s.active
    ensures !a.Submit? && Enabled(c, s, a)
  {
    if In(s, Judging(b)) != {} {
      var j :| j in In(s, Judging(b));
      a := OneJob(j, Probe(None));
    } else if In(s, Accepted(b)) != {} {
      a := BatchEncode(b, NotStarted);
    } else {
      a := BatchEmpty(b);
    }
  }

  /** Without new submissions a run ends: it has at most as many steps as work remained. */
  lemma {:induction false} RunsEnd(c: Config, before: seq<Action>, more: seq<Action>)
    requires Run(c, before).Some? && Run(c, before + more).Some?
    requires forall a | a in more :: !a.Submit?
    ensures Remaining(c, Run(c, before + more).value) + |more| <= Remaining(c, Run(c, before).value)
  {
    if more == [] {
      assert before + more == before;
    } else {
      var all := before + more;
      assert all[..|all| - 1] == before + more[..|more| - 1];
      RunsEnd(c, before, more[..|more| - 1]);
      RunKeepsInv(c, all[..|all| - 1]);
      StepsUseUpWork(c, Run(c, all[..|all| - 1]).value, all[|all| - 1]);
    }
  }

  /** And it cannot stop before every job has been answered. */
  lemma {:induction false} UnansweredRunsGoOn(c: Config, actions: seq<Action>, j: Job) returns (a: Action)
    requires Run(c, actions).Some? && j in Run(c, actions).value.jobs
    requires !Run(c, actions).value.jobs[j].stage.Answered?
    ensures !a.Submit? && Run(c, actions + [a]).Some?
  {
    RunKeepsInv(c, actions);
    a := NothingIsStuck(c, Run(c, actions).value, j);
    assert (actions + [a])[..|actions|] == actions;
  }
}
