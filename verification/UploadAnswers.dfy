/**
 Which answer an upload earns, read off what happened to it: its own probes, the encoder runs it
 took part in, and the attempts of its writer.
 */
module UploadAnswers {
  import opened Options
  import opened UploadPipeline

  datatype Hap =
    | Probed(secs: Option<real>)
    | InBatch(run: Encoder, alone: bool)     // the batch encoder, with or without other inputs
    | OnItsOwn(run: Encoder)
    | OutputProbed(secs: Option<real>)
    | Tried(outcome: CommitOutcome)
    | Wound                                  // after the writer

  function HapOf(act: JobAct): Hap {
    match act
    case Probe(secs) => Probed(secs)
    case EncodeAlone(run) => OnItsOwn(run)
    case ProbeOutput(secs) => OutputProbed(secs)
    case TryCommit(outcome) => Tried(outcome)
    case Finish => Wound
  }

  // What an action means for job j.
  function HapsOf(s: State, a: Action, j: Job): seq<Hap> {
    if a.OneJob? && a.j == j then [HapOf(a.act)]
    else if a.BatchEncode? && j in s.jobs && s.jobs[j].stage == Accepted(a.b)
    then [InBatch(a.run, In(s, Accepted(a.b)) == {j})]
    else []
  }

  function History(c: Config, actions: seq<Action>, j: Job): seq<Hap>
    requires Run(c, actions).Some?
  {
    if actions == [] then [] else
    var n := |actions| - 1;
    History(c, actions[..n], j) + HapsOf(Run(c, actions[..n]).value, actions[n], j)
  }

  // ------------------------------------------------------------ what earns which answer

  // The duration is out of bounds, and this is the bound it is out of.
  predicate Breaks(c: Config, expected: Option<real>, secs: real, reason: Reason) {
    var off := expected.Some? && (secs < expected.value - c.tolerance || secs > expected.value + c.tolerance);
    match reason
    case Mismatch => off
    case TooShort => !off && 0.0 < secs <= 30.0
    case TooLong => !off && !(0.0 < secs <= 30.0) && 0.0 < c.maxDuration < secs
  }

  /** The gate names the bound that is broken, a mismatch before a short track before a long one. */
  lemma GateReasons(c: Config, expected: Option<real>, secs: real, reason: Reason)
    ensures Gate(c, expected, secs) == Some(reason) <==> Breaks(c, expected, secs, reason)
  {
  }

  // The job has no encoded output, or none that can be read.
  predicate NoOutput(h: Hap) {
    || (h.InBatch? && h.alone && !h.run.EncodeOk?)
    || (h.OnItsOwn? && !h.run.EncodeOk?)
    || (h.OutputProbed? && (h.secs.None? || h.secs.value <= 0.0))
  }

  predicate Forbidden(c: Config, expected: Option<real>, h: Hap, reason: Reason) {
    || (h.Probed? && h.secs.Some? && Breaks(c, expected, h.secs.value, reason))
    || (h.OutputProbed? && h.secs.Some? && h.secs.value > 0.0 && Breaks(c, expected, h.secs.value, reason))
  }

  function Errors(h: seq<Hap>): nat {
    if h == [] then 0 else
    var last := h[|h| - 1];
    Errors(h[..|h| - 1]) + if last.Tried? && last.outcome.OtherError? then 1 else 0
  }

  ghost predicate Earned(c: Config, expected: Option<real>, h: seq<Hap>, answer: Answer) {
    match answer
    case Ffmpeg => exists x :: x in h && NoOutput(x)
    case Gated(reason) => exists x :: x in h && Forbidden(c, expected, x, reason)
    case Backend => Tried(NotFound) in h || Errors(h) > c.retries
    case Done(secs) => Tried(CommitOk) in h && OutputProbed(Some(secs)) in h
  }

  // ------------------------------------------------------------ one job

  // Nothing so far earns an answer.
  ghost predicate Open(c: Config, expected: Option<real>, h: seq<Hap>) {
    && (forall x | x in h :: !NoOutput(x))
    && (forall x, reason | x in h :: !Forbidden(c, expected, x, reason))
    && Tried(NotFound) !in h
  }

  ghost predicate OutputIs(h: seq<Hap>, secs: real) {
    forall p :: OutputProbed(p) in h <==> p == Some(secs)
  }

  ghost predicate Settles(c: Config, expected: Option<real>, h: seq<Hap>, answer: Answer) {
    forall other :: Earned(c, expected, h, other) <==> other == answer
  }

  ghost predicate Fits(c: Config, s: JobState, h: seq<Hap>) {
    match s.stage
    case Writing(attempt, secs) =>
      Open(c, s.expected, h) && OutputIs(h, secs) && Errors(h) == attempt && Tried(CommitOk) !in h
    case Stored(secs) =>
      Open(c, s.expected, h) && OutputIs(h, secs) && Errors(h) <= c.retries && Tried(CommitOk) in h
    case Unstored =>
      && (forall x | x in h :: !NoOutput(x))
      && (forall x, reason | x in h :: !Forbidden(c, s.expected, x, reason))
      && Tried(CommitOk) !in h && (Tried(NotFound) in h || Errors(h) > c.retries)
    case Answered =>
      && s.log != [] && s.log[|s.log| - 1].Reply?
      && Settles(c, s.expected, h, s.log[|s.log| - 1].answer)
    case _ =>
      Open(c, s.expected, h) && Errors(h) == 0 && Tried(CommitOk) !in h && (forall p :: OutputProbed(p) !in h)
  }

  lemma ErrorsAppend(h: seq<Hap>, x: Hap)
    ensures Errors(h + [x]) == Errors(h) + if x.Tried? && x.outcome.OtherError? then 1 else 0
  {
    assert (h + [x])[..|h|] == h;
  }

  lemma OpenAppend(c: Config, expected: Option<real>, h: seq<Hap>, x: Hap)
    requires Open(c, expected, h) && !NoOutput(x) && x != Tried(NotFound)
    requires forall reason :: !Forbidden(c, expected, x, reason)
    ensures Open(c, expected, h + [x])
  {
  }

  // A happening that ends the job before the writer.
  lemma EndsEarly(c: Config, expected: Option<real>, h: seq<Hap>, x: Hap, answer: Answer)
    requires Open(c, expected, h) && Errors(h) == 0 && Tried(CommitOk) !in h && !x.Tried?
    requires answer.Ffmpeg? || answer.Gated?
    requires NoOutput(x) <==> answer.Ffmpeg?
    requires forall reason :: Forbidden(c, expected, x, reason) <==> answer == Gated(reason)
    ensures Settles(c, expected, h + [x], answer)
  {
    ErrorsAppend(h, x);
    assert x in h + [x];
    forall other ensures Earned(c, expected, h + [x], other) <==> other == answer {
      match other
      case Ffmpeg =>
      case Gated(reason) =>
      case Backend =>
      case Done(_) =>
    }
  }

  lemma BreaksOneBound(c: Config, expected: Option<real>, secs: real, r1: Reason, r2: Reason)
    requires Breaks(c, expected, secs, r1) && Breaks(c, expected, secs, r2)
    ensures r1 == r2
  {
  }

  // A probe that the gate judges, of the source or of the output.
  lemma GatedFits(c: Config, s: JobState, h: seq<Hap>, x: Hap, secs: real, reason: Reason)
    requires Open(c, s.expected, h) && Errors(h) == 0 && Tried(CommitOk) !in h
    requires x == Probed(Some(secs)) || (x == OutputProbed(Some(secs)) && secs > 0.0)
    requires Gate(c, s.expected, secs) == Some(reason)
    ensures Settles(c, s.expected, h + [x], Gated(reason))
  {
    forall r ensures Forbidden(c, s.expected, x, r) <==> Gated(reason) == Gated(r) {
      GateReasons(c, s.expected, secs, r);
    }
    EndsEarly(c, s.expected, h, x, Gated(reason));
  }

  lemma PassedFits(c: Config, expected: Option<real>, h: seq<Hap>, x: Hap)
    requires Open(c, expected, h) && !NoOutput(x)
    requires x.Probed? || x.OutputProbed?
    requires x.secs.Some? ==> Gate(c, expected, x.secs.value).None?
    ensures Open(c, expected, h + [x])
  {
    forall r ensures !Forbidden(c, expected, x, r) {
      if x.secs.Some? { GateReasons(c, expected, x.secs.value, r); }
    }
    OpenAppend(c, expected, h, x);
  }

  lemma ProbeFits(c: Config, s: JobState, h: seq<Hap>, secs: Option<real>)
    requires Fits(c, s, h) && JobMay(s, Probe(secs))
    ensures Fits(c, JobStep(c, s, Probe(secs)), h + [Probed(secs)])
  {
    ErrorsAppend(h, Probed(secs));
    if secs.Some? && Gate(c, s.expected, secs.value).Some? {
      GatedFits(c, s, h, Probed(secs), secs.value, Gate(c, s.expected, secs.value).value);
    } else {
      PassedFits(c, s.expected, h, Probed(secs));
    }
  }

  lemma EncoderFits(c: Config, s: JobState, h: seq<Hap>, x: Hap)
    requires Open(c, s.expected, h) && Errors(h) == 0 && Tried(CommitOk) !in h
    requires x.InBatch? || x.OnItsOwn?
    ensures if NoOutput(x) then Settles(c, s.expected, h + [x], Ffmpeg)
            else Open(c, s.expected, h + [x]) && Errors(h + [x]) == 0 && Tried(CommitOk) !in h + [x]
  {
    ErrorsAppend(h, x);
    if NoOutput(x) {
      EndsEarly(c, s.expected, h, x, Ffmpeg);
    } else {
      OpenAppend(c, s.expected, h, x);
    }
  }

  lemma EncodeFits(c: Config, s: JobState, h: seq<Hap>, run: Encoder, alone: bool)
    requires Fits(c, s, h) && s.stage.Accepted?
    ensures Fits(c, Encode(s, run, alone), h + [InBatch(run, alone)])
  {
    EncoderFits(c, s, h, InBatch(run, alone));
  }

  lemma AloneFits(c: Config, s: JobState, h: seq<Hap>, run: Encoder)
    requires Fits(c, s, h) && JobMay(s, EncodeAlone(run))
    ensures Fits(c, JobStep(c, s, EncodeAlone(run)), h + [OnItsOwn(run)])
  {
    EncoderFits(c, s, h, OnItsOwn(run));
  }

  lemma OutputFits(c: Config, s: JobState, h: seq<Hap>, secs: Option<real>)
    requires Fits(c, s, h) && JobMay(s, ProbeOutput(secs))
    ensures Fits(c, JobStep(c, s, ProbeOutput(secs)), h + [OutputProbed(secs)])
  {
    var x := OutputProbed(secs);
    ErrorsAppend(h, x);
    if NoOutput(x) {
      EndsEarly(c, s.expected, h, x, Ffmpeg);
    } else if Gate(c, s.expected, secs.value).Some? {
      GatedFits(c, s, h, x, secs.value, Gate(c, s.expected, secs.value).value);
    } else {
      PassedFits(c, s.expected, h, x);
    }
  }

  lemma TryFits(c: Config, s: JobState, h: seq<Hap>, outcome: CommitOutcome)
    requires JobInv(c, s) && Fits(c, s, h) && JobMay(s, TryCommit(outcome))
    ensures Fits(c, JobStep(c, s, TryCommit(outcome)), h + [Tried(outcome)])
  {
    ErrorsAppend(h, Tried(outcome));
    if outcome != NotFound { OpenAppend(c, s.expected, h, Tried(outcome)); }
  }

  lemma FinishFits(c: Config, s: JobState, h: seq<Hap>)
    requires Fits(c, s, h) && JobMay(s, Finish)
    ensures Fits(c, JobStep(c, s, Finish), h + [Wound])
  {
    ErrorsAppend(h, Wound);
    var t := JobStep(c, s, Finish);
    var answer := t.log[|t.log| - 1].answer;
    forall other ensures Earned(c, s.expected, h + [Wound], other) <==> other == answer {
      match other
      case Ffmpeg =>
      case Gated(reason) =>
      case Backend =>
      case Done(_) =>
    }
  }

  lemma JobStepFits(c: Config, s: JobState, h: seq<Hap>, act: JobAct)
    requires JobInv(c, s) && Fits(c, s, h) && JobMay(s, act)
    ensures Fits(c, JobStep(c, s, act), h + [HapOf(act)])
  {
    match act
    case Probe(secs) => ProbeFits(c, s, h, secs);
    case EncodeAlone(run) => AloneFits(c, s, h, run);
    case ProbeOutput(secs) => OutputFits(c, s, h, secs);
    case TryCommit(outcome) => TryFits(c, s, h, outcome);
    case Finish => FinishFits(c, s, h);
  }

  // ------------------------------------------------------------ whole runs

  lemma OnlyAccepted(s: State, b: BatchId, j: Job)
    requires j in s.jobs && s.jobs[j].stage == Accepted(b)
    ensures |In(s, Accepted(b))| == 1 <==> In(s, Accepted(b)) == {j}
  {
    var members := In(s, Accepted(b));
    assert j in members;
    if |members| == 1 {
      var others := members - {j};
      assert |others| == 0;
    }
  }

  lemma EffectFits(c: Config, s: State, a: Action, j: Job, h: seq<Hap>)
    requires Enabled(c, s, a) && j in s.jobs && JobInv(c, s.jobs[j]) && Fits(c, s.jobs[j], h)
    ensures Fits(c, Effect(c, s, a, j), h + HapsOf(s, a, j))
  {
    if a.OneJob? && a.j == j {
      JobStepFits(c, s.jobs[j], h, a.act);
    } else if a.BatchEncode? && s.jobs[j].stage == Accepted(a.b) {
      OnlyAccepted(s, a.b, j);
      EncodeFits(c, s.jobs[j], h, a.run, In(s, Accepted(a.b)) == {j});
    } else {
      assert h + [] == h;
    }
  }

  // Before it is submitted nothing happens to a job.
  lemma {:induction false} NothingHappensBefore(c: Config, actions: seq<Action>, j: Job)
    requires Run(c, actions).Some? && j !in Run(c, actions).value.jobs
    ensures History(c, actions, j) == []
  {
    if actions != [] {
      var n := |actions| - 1;
      var s := Run(c, actions[..n]).value;
      assert j !in s.jobs;
      NothingHappensBefore(c, actions[..n], j);
    }
  }

  lemma {:induction false} RunFits(c: Config, actions: seq<Action>, j: Job)
    requires Run(c, actions).Some? && j in Run(c, actions).value.jobs
    ensures Fits(c, Run(c, actions).value.jobs[j], History(c, actions, j))
  {
    var n := |actions| - 1;
    var s, a := Run(c, actions[..n]).value, actions[n];
    if j in s.jobs {
      RunFits(c, actions[..n], j);
      RunKeepsInv(c, actions[..n]);
      EffectFits(c, s, a, j, History(c, actions[..n], j));
    } else {
      NothingHappensBefore(c, actions[..n], j);
    }
  }

  lemma {:induction false} JobOfRun(c: Config, actions: seq<Action>, j: Job)
    requires Run(c, actions).Some? && j in Run(c, actions).value.jobs
    ensures JobInv(c, Run(c, actions).value.jobs[j])
  {
    RunKeepsInv(c, actions);
  }

  lemma LastReplyIsEarned(c: Config, s: JobState, h: seq<Hap>, answer: Answer)
    requires JobInv(c, s) && Fits(c, s, h)
    ensures s.stage.Answered? ==> (Reply(answer) in s.log <==> Earned(c, s.expected, h, answer))
  {
    if s.stage.Answered? {
      assert Reply(answer) in s.log <==> answer == s.log[|s.log| - 1].answer;
    }
  }

  /**
   Every answer is the one that what happened to the job earns, and the only one: Ffmpeg if and only
   if it was left without a readable output, by its own encoder run or by one of a batch in which it
   was alone; Gated if and only if a probe of it breaks that bound; Backend if and only if its output
   was not found or all retries + 1 attempts failed; Done if and only if an attempt committed it.
   */
  lemma {:induction false} AnswersAreEarned(c: Config, actions: seq<Action>, j: Job, answer: Answer)
    requires Run(c, actions).Some? && j in Run(c, actions).value.jobs
    ensures var s := Run(c, actions).value.jobs[j];
            s.stage.Answered? ==>
              (Reply(answer) in s.log <==> Earned(c, s.expected, History(c, actions, j), answer))
  {
    RunFits(c, actions, j);
    JobOfRun(c, actions, j);
    LastReplyIsEarned(c, Run(c, actions).value.jobs[j], History(c, actions, j), answer);
  }

  /** An answer that has been earned other than by the writer has been given; the writer's is on its way. */
  lemma {:induction false} EarnedIsAnswered(c: Config, actions: seq<Action>, j: Job, answer: Answer)
    requires Run(c, actions).Some? && j in Run(c, actions).value.jobs
    requires Earned(c, Run(c, actions).value.jobs[j].expected, History(c, actions, j), answer)
    ensures var stage := Run(c, actions).value.jobs[j].stage;
            && (answer.Ffmpeg? || answer.Gated? ==> stage.Answered?)
            && (answer.Backend? ==> stage.Answered? || stage.Unstored?)
            && (answer.Done? ==> stage.Answered? || stage == Stored(answer.secs))
  {
    RunFits(c, actions, j);
    JobOfRun(c, actions, j);
  }

  /** A job is judged by the expected duration it was submitted with. */
  lemma {:induction false} JudgedAsSubmitted(c: Config, actions: seq<Action>, j: Job)
    requires Run(c, actions).Some? && j in Run(c, actions).value.jobs
    ensures var s := Run(c, actions).value.jobs[j]; Submit(j, s.expected, s.named) in actions
  {
    var n := |actions| - 1;
    var s := Run(c, actions[..n]).value;
    if j in s.jobs {
      JudgedAsSubmitted(c, actions[..n], j);
      EffectKeepsTerms(c, s, actions[n], j);
    }
  }

  lemma EffectKeepsTerms(c: Config, s: State, a: Action, j: Job)
    requires Enabled(c, s, a) && j in s.jobs
    ensures var t := Effect(c, s, a, j); t.expected == s.jobs[j].expected && t.named == s.jobs[j].named
  {
    if a.OneJob? && a.j == j { JobStepKeepsTerms(c, s.jobs[j], a.act); }
  }

  lemma JobStepKeepsTerms(c: Config, s: JobState, act: JobAct)
    requires JobMay(s, act)
    ensures var t := JobStep(c, s, act); t.expected == s.expected && t.named == s.named
  {
  }

  // ------------------------------------------------------------ the size of batches

  function BatchLimit(c: Config): nat { if c.batchSize > 1 then c.batchSize else 1 }

  // The jobs of a batch that the encoder has not had yet.
  function BatchJobs(s: State, b: BatchId): set<Job> {
    In(s, Judging(b)) + In(s, Accepted(b))
  }

  ghost predicate SmallBatches(c: Config, s: State) {
    |In(s, Collected)| <= BatchLimit(c) && forall b :: |BatchJobs(s, b)| <= BatchLimit(c)
  }

  lemma SubsetSize(a: set<Job>, b: set<Job>)
    requires a <= b
    ensures |a| <= |b|
  {
    if a != {} {
      var x :| x in a;
      SubsetSize(a - {x}, b - {x});
    }
  }

  lemma CollectedStaysSmall(c: Config, s: State, a: Action)
    requires Enabled(c, s, a) && |In(s, Collected)| <= BatchLimit(c)
    ensures |In(Step(c, s, a), Collected)| <= BatchLimit(c)
  {
    var now, before := In(Step(c, s, a), Collected), In(s, Collected);
    forall j | j in now ensures j in before || a == Receive(j) {
      CollectedBefore(c, s, a, j);
    }
    if a.Receive? {
      SubsetSize(now, before + {a.j});
    } else {
      SubsetSize(now, before);
    }
  }

  lemma CollectedBefore(c: Config, s: State, a: Action, j: Job)
    requires Enabled(c, s, a) && j in In(Step(c, s, a), Collected)
    ensures j in In(s, Collected) || a == Receive(j)
  {
    if j in s.jobs { OnlyReceived(c, s, a, j); }
  }

  lemma OnlyReceived(c: Config, s: State, a: Action, j: Job)
    requires Enabled(c, s, a) && j in s.jobs
    ensures Effect(c, s, a, j).stage == Collected ==> s.jobs[j].stage == Collected || a == Receive(j)
    ensures !a.Submit? ==> Step(c, s, a).jobs[j] == Effect(c, s, a, j)
    ensures a.Submit? ==> Step(c, s, a).jobs[j] == s.jobs[j]
  {
  }

  lemma BatchStaysSmall(c: Config, s: State, a: Action, b: BatchId)
    requires Inv(c, s) && Enabled(c, s, a) && SmallBatches(c, s)
    ensures |BatchJobs(Step(c, s, a), b)| <= BatchLimit(c)
  {
    var t := Step(c, s, a);
    if a.Launch? && b == s.nextBatch {
      forall j | j in BatchJobs(t, b) ensures j in In(s, Collected) {
        assert t.jobs[j] == Effect(c, s, a, j);
      }
      SubsetSize(BatchJobs(t, b), In(s, Collected));
    } else {
      forall j | j in BatchJobs(t, b) ensures j in BatchJobs(s, b) {
        StaysInBatch(c, s, a, j, b);
      }
      SubsetSize(BatchJobs(t, b), BatchJobs(s, b));
    }
  }

  lemma StaysInBatch(c: Config, s: State, a: Action, j: Job, b: BatchId)
    requires Enabled(c, s, a) && j in BatchJobs(Step(c, s, a), b) && !(a.Launch? && b == s.nextBatch)
    ensures j in BatchJobs(s, b)
  {
    if j in s.jobs { assert Step(c, s, a).jobs[j] == Effect(c, s, a, j); }
  }

  /** No batch is larger than the batch size, or than one. */
  lemma {:induction false} BatchesAreSmall(c: Config, actions: seq<Action>)
    requires Run(c, actions).Some?
    ensures SmallBatches(c, Run(c, actions).value)
  {
    if actions != [] {
      var n := |actions| - 1;
      BatchesAreSmall(c, actions[..n]);
      RunKeepsInv(c, actions[..n]);
      CollectedStaysSmall(c, Run(c, actions[..n]).value, actions[n]);
      forall b ensures |BatchJobs(Run(c, actions).value, b)| <= BatchLimit(c) {
        BatchStaysSmall(c, Run(c, actions[..n]).value, actions[n], b);
      }
    } else {
      forall b: BatchId ensures BatchJobs(INITIAL, b) == {} { }
    }
  }
}
