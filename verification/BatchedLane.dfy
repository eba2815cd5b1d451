/**
 The batched worker lane: one fetcher, up to `fanout` prepare tasks, a bounded
 queue and one GPU executor share JetStream deliveries.  Every await point of
 the coroutines is one action, so a run is any interleaving of actions.
 */
module BatchedLane {
  import opened Options

  type Msg = nat      // one delivery; a redelivery is a new number
  type Output = int   // one element of what gpu_batch returns

  datatype Config = Config(fanout: nat, maxBatch: int) {
    // asyncio.Queue(maxsize=...)
    function Capacity(): nat {
      if 2 * maxBatch > fanout + 1 then 2 * maxBatch else fanout + 1
    }

    // A batch always holds its first item, whatever max_batch says.
    function BatchLimit(): nat {
      if maxBatch > 1 then maxBatch else 1
    }
  }

  // What the outside world observes, in order.
  datatype Event =
    | PreparedNone(msg: Msg)
    | GpuReturned(batch: seq<Msg>, outs: seq<Output>)
    | Published(msg: Msg, out: Output)
    | Acked(msg: Msg)
    | Naked(msg: Msg)
    | Termed(msg: Msg)
  {
    predicate Settles(m: Msg) {
      (Acked? || Naked? || Termed?) && msg == m
    }
  }

  // ------------------------------------------------------------ one prepare task (_intake)

  datatype Stage = Parsing | Terming | Preparing | Naking | Skipping | Acking | Putting

  datatype TaskAct =
    | PayloadBad | PayloadOk
    | PrepareRaised | PrepareNone | PrepareOk
    | SkipDone                 // the skip event went out, or failed and was only logged
    | BusDone                  // the pending term, nak or ack went through
    | Raised                   // that call raised, or the task was cancelled at shutdown
    | Put

  datatype TaskMove =
    | Stay(stage: Stage)
    | StaySaying(stage: Stage, event: Event)
    | Settle(event: Event)
    | Enqueue
    | Abandon

  predicate TaskMay(stage: Stage, t: TaskAct, queueFull: bool, stopped: bool) {
    match t
    case PayloadBad => stage == Parsing
    case PayloadOk => stage == Parsing
    case PrepareRaised => stage == Preparing
    case PrepareNone => stage == Preparing
    case PrepareOk => stage == Preparing
    case SkipDone => stage == Skipping
    case BusDone => stage in {Terming, Naking, Acking}
    case Raised => stopped || stage in {Terming, Naking, Acking}
    case Put => stage == Putting && !queueFull
  }

  function TaskStep(m: Msg, stage: Stage, t: TaskAct): TaskMove {
    match t
    case PayloadBad => Stay(Terming)
    case PayloadOk => Stay(Preparing)
    case PrepareRaised => Stay(Naking)
    case PrepareNone => StaySaying(Skipping, PreparedNone(m))
    case PrepareOk => Stay(Putting)
    case SkipDone => Stay(Acking)
    case BusDone =>
      Settle(if stage == Terming then Termed(m) else if stage == Naking then Naked(m) else Acked(m))
    case Raised => Abandon
    case Put => Enqueue
  }

  // ------------------------------------------------------------ the executor (_executor, _run_batch)

  // `rest` holds the items a failed batch still has to retry one by one;
  // `todo` and `outs` are what the zip loop over batch and results has left.
  datatype Executor =
    | Waiting
    | Collecting(batch: seq<Msg>)
    | Gpu(batch: seq<Msg>, rest: seq<Msg>)
    | NakAll(batch: seq<Msg>, rest: seq<Msg>)
    | Emitting(stage: EmitStage, todo: seq<Msg>, outs: seq<Output>,
               batch: seq<Msg>, results: seq<Output>, rest: seq<Msg>)
    | Dead
  {
    predicate Valid() {
      && (Collecting? || Gpu? || NakAll? ==> batch != [])
      && (Emitting? ==> |todo| == |outs| && todo != [])
    }

    // The deliveries the executor still has to settle.
    function Items(): seq<Msg>
      requires Valid()
    {
      match this
      case Waiting => []
      case Collecting(b) => b
      case Gpu(b, rest) => b + rest
      case NakAll(b, rest) => b + rest
      case Emitting(_, todo, _, _, _, rest) => todo + rest
      case Dead => []
    }
  }

  datatype EmitStage = ToPublish | ToAck | ToNak

  datatype ExecAct =
    | StartBatch
    | GpuRaises | GpuReturns(outs: seq<Output>)
    | BatchNaked
    | PublishOk | PublishOrAckRaised | ItemAcked | ItemNaked

  predicate ExecMay(e: Executor, x: ExecAct) {
    match x
    case StartBatch => e.Collecting?
    case GpuRaises => e.Gpu?
    case GpuReturns(_) => e.Gpu?
    case BatchNaked => e.NakAll?
    case PublishOk => e.Emitting? && e.stage == ToPublish
    case PublishOrAckRaised => e.Emitting? && e.stage != ToNak
    case ItemAcked => e.Emitting? && e.stage == ToAck
    case ItemNaked => e.Emitting? && e.stage == ToNak
  }

  // _run_batch returned; a per-item retry goes on with the next item.
  function AfterBatch(rest: seq<Msg>): Executor {
    if rest == [] then Waiting else Gpu([rest[0]], rest[1..])
  }

  function NextItem(e: Executor): Executor
    requires e.Valid() && e.Emitting?
  {
    if |e.todo| > 1 then e.(stage := ToPublish, todo := e.todo[1..], outs := e.outs[1..])
    else AfterBatch(e.rest)
  }

  // The executor after one await, and the event that await made visible.
  function ExecStep(e: Executor, x: ExecAct): (Executor, Option<Event>)
    requires e.Valid() && ExecMay(e, x)
  {
    match x
    case StartBatch => (Gpu(e.batch, []), None)
    case GpuRaises =>
      if |e.batch| == 1 then (NakAll(e.batch, e.rest), None)
      else (Gpu([e.batch[0]], e.batch[1..] + e.rest), None)
    case GpuReturns(outs) =>
      if |outs| != |e.batch| then (NakAll(e.batch, e.rest), None)
      else (Emitting(ToPublish, e.batch, outs, e.batch, outs, e.rest), Some(GpuReturned(e.batch, outs)))
    case BatchNaked =>
      (if |e.batch| > 1 then NakAll(e.batch[1..], e.rest) else AfterBatch(e.rest),
       Some(Naked(e.batch[0])))
    case PublishOk => (e.(stage := ToAck), Some(Published(e.todo[0], e.outs[0])))
    case PublishOrAckRaised => (e.(stage := ToNak), None)
    case ItemAcked => (NextItem(e), Some(Acked(e.todo[0])))
    case ItemNaked => (NextItem(e), Some(Naked(e.todo[0])))
  }

  // ------------------------------------------------------------ the whole lane

  datatype Fetcher = Ready | Holding | Exited

  datatype State = State(
    stopped: bool,
    fetched: set<Msg>,
    fetcher: Fetcher,
    permits: nat,
    prep: map<Msg, Stage>,
    queue: seq<Msg>,
    exec: Executor,
    abandoned: set<Msg>,   // a bus call raised, or the task was cancelled at shutdown
    log: seq<Event>
  )

  datatype Action =
    | Stop
    | Acquire
    | FetchNothing          // timeout, error or empty fetch
    | FetchMsg(m: Msg)
    | FetcherExit
    | Task(m: Msg, t: TaskAct)
    | Take                  // the executor gets one item from the queue
    | Exec(x: ExecAct)
    | ExecutorDies          // a nak raised, or the executor was cancelled at shutdown
    | Drain                 // the queue is emptied after shutdown

  function Init(c: Config): State {
    State(false, {}, Ready, c.fanout, map[], [], Waiting, {}, [])
  }

  predicate Enabled(c: Config, s: State, a: Action) {
    match a
    case Stop => true
    case Acquire => s.fetcher == Ready && !s.stopped && s.permits > 0
    case FetchNothing => s.fetcher == Holding
    case FetchMsg(m) => s.fetcher == Holding && m !in s.fetched
    case FetcherExit => s.stopped && s.fetcher != Exited
    case Task(m, t) => m in s.prep && TaskMay(s.prep[m], t, |s.queue| >= c.Capacity(), s.stopped)
    case Take =>
      s.queue != [] && (s.exec.Waiting? || (s.exec.Collecting? && |s.exec.batch| < c.maxBatch))
    case Exec(x) => ExecMay(s.exec, x)
    case ExecutorDies =>
      !s.exec.Dead? && (s.stopped || s.exec.NakAll? || (s.exec.Emitting? && s.exec.stage == ToNak))
    case Drain => s.stopped && s.fetcher == Exited && s.exec.Dead? && s.queue != []
  }

  function Say(log: seq<Event>, e: Option<Event>): seq<Event> {
    if e.Some? then log + [e.value] else log
  }

  function ApplyMove(s: State, m: Msg, move: TaskMove): State
    requires m in s.prep
  {
    // the finally clause of _prep releases the permit when the task ends
    var ended := s.(prep := s.prep - {m}, permits := s.permits + 1);
    match move
    case Stay(stage) => s.(prep := s.prep[m := stage])
    case StaySaying(stage, e) => s.(prep := s.prep[m := stage], log := s.log + [e])
    case Settle(e) => ended.(log := s.log + [e])
    case Enqueue => ended.(queue := s.queue + [m])
    case Abandon => ended.(abandoned := s.abandoned + {m})
  }

  function Step(c: Config, s: State, a: Action): State
    requires s.exec.Valid() && Enabled(c, s, a)
  {
    match a
    case Stop => s.(stopped := true)
    case Acquire => s.(fetcher := Holding, permits := s.permits - 1)
    case FetchNothing => s.(fetcher := Ready, permits := s.permits + 1)
    case FetchMsg(m) => s.(fetcher := Ready, fetched := s.fetched + {m}, prep := s.prep[m := Parsing])
    case FetcherExit =>
      s.(fetcher := Exited, permits := s.permits + if s.fetcher == Holding then 1 else 0)
    case Task(m, t) => ApplyMove(s, m, TaskStep(m, s.prep[m], t))
    case Take =>
      var batch := if s.exec.Collecting? then s.exec.batch else [];
      s.(exec := Collecting(batch + [s.queue[0]]), queue := s.queue[1..])
    case Exec(x) =>
      var (e, event) := ExecStep(s.exec, x);
      s.(exec := e, log := Say(s.log, event))
    case ExecutorDies =>
      s.(exec := Dead, abandoned := s.abandoned + (set m | m in s.exec.Items()))
    case Drain => s.(queue := s.queue[1..], abandoned := s.abandoned + {s.queue[0]})
  }

  /** The state after a list of actions, or None when one of them was not possible. */
  function Run(c: Config, actions: seq<Action>): Option<State> {
    if actions == [] then Some(Init(c)) else
    match Run(c, actions[..|actions| - 1])
    case None => None
    case Some(s) =>
      var a := actions[|actions| - 1];
      if s.exec.Valid() && Enabled(c, s, a) then Some(Step(c, s, a)) else None
  }

  // ------------------------------------------------------------ what is promised

  // How often m was acked, naked or termed.
  function SettleCount(log: seq<Event>, m: Msg): nat {
    if log == [] then 0
    else SettleCount(log[..|log| - 1], m) + if log[|log| - 1].Settles(m) then 1 else 0
  }

  function Count(items: seq<Msg>, m: Msg): nat {
    if items == [] then 0 else Count(items[1..], m) + if items[0] == m then 1 else 0
  }

  // In how many places the delivery m is.
  function Places(s: State, m: Msg): nat
    requires s.exec.Valid()
  {
    (if m in s.prep then 1 else 0)
    + Count(s.queue, m)
    + Count(s.exec.Items(), m)
    + SettleCount(s.log, m)
    + (if m in s.abandoned then 1 else 0)
  }

  ghost predicate OnePlace(s: State)
    requires s.exec.Valid()
  {
    forall m :: Places(s, m) == if m in s.fetched then 1 else 0
  }

  predicate InBatch(m: Msg, o: Output, batch: seq<Msg>, outs: seq<Output>) {
    |batch| == |outs| && exists k :: 0 <= k < |batch| && batch[k] == m && outs[k] == o
  }

  // What has to have happened before an event may happen.
  ghost predicate Caused(e: Event, before: seq<Event>) {
    match e
    case Acked(m) => PreparedNone(m) in before || exists o :: Published(m, o) in before
    case Published(m, o) =>
      exists b, os :: GpuReturned(b, os) in before && InBatch(m, o, b, os)
    case _ => true
  }

  ghost predicate Justified(log: seq<Event>) {
    forall i | 0 <= i < |log| :: Caused(log[i], log[..i])
  }

  function Unsettled(s: State): nat
    requires s.exec.Valid()
  {
    |s.prep| + |s.queue| + |s.exec.Items()|
  }

  ghost predicate Safe(c: Config, s: State) {
    && s.exec.Valid()
    && OnePlace(s)
    && Justified(s.log)
    && Unsettled(s) <= c.fanout + c.Capacity() + c.BatchLimit()
  }

  // ------------------------------------------------------------ one executor step

  predicate SettlesOne(event: Option<Event>) {
    event.Some? && (event.value.Acked? || event.value.Naked? || event.value.Termed?)
  }

  // The executor either settles its first item, or keeps all of them.
  predicate Conserves(before: seq<Msg>, event: Option<Event>, after: seq<Msg>) {
    if SettlesOne(event) then before == [event.value.msg] + after else before == after
  }

  lemma {:induction false} ExecStepConserves(e: Executor, x: ExecAct)
    requires e.Valid() && ExecMay(e, x)
    ensures ExecStep(e, x).0.Valid()
    ensures Conserves(e.Items(), ExecStep(e, x).1, ExecStep(e, x).0.Items())
  {
    if e.Collecting? || e.Gpu? {
      BatchStepConserves(e, x);
    } else if e.NakAll? {
      FirstOut(e.batch, e.rest);
    } else {
      FirstOut(e.todo, e.rest);
    }
  }

  lemma {:induction false} BatchStepConserves(e: Executor, x: ExecAct)
    requires e.Valid() && ExecMay(e, x) && (e.Collecting? || e.Gpu?)
    ensures ExecStep(e, x).0.Valid()
    ensures Conserves(e.Items(), ExecStep(e, x).1, ExecStep(e, x).0.Items())
  {
    match x
    case StartBatch => assert e.batch == e.batch + [];
    case GpuRaises => FirstOut(e.batch, e.rest);
    case GpuReturns(outs) =>
  }

  lemma FirstOut(todo: seq<Msg>, rest: seq<Msg>)
    requires todo != []
    ensures todo + rest == [todo[0]] + (todo[1..] + rest)
    ensures |todo| == 1 ==> todo + rest == [todo[0]] + rest
    ensures AfterBatch(rest).Valid() && AfterBatch(rest).Items() == rest
  {
  }

  // What the executor knows about the log.
  ghost predicate ExecHistory(e: Executor, log: seq<Event>)
    requires e.Valid()
  {
    e.Emitting? ==>
      && GpuReturned(e.batch, e.results) in log
      && (forall i | 0 <= i < |e.todo| :: InBatch(e.todo[i], e.outs[i], e.batch, e.results))
      && (e.stage == ToAck ==> Published(e.todo[0], e.outs[0]) in log)
  }

  lemma ExecStepIsCaused(e: Executor, x: ExecAct, log: seq<Event>)
    requires e.Valid() && ExecMay(e, x) && ExecHistory(e, log)
    ensures var (e', event) := ExecStep(e, x);
            && e'.Valid()
            && ExecHistory(e', Say(log, event))
            && (event.Some? ==> Caused(event.value, log))
  {
    ExecStepConserves(e, x);
  }

  // ------------------------------------------------------------ the invariant

  ghost predicate Bounds(c: Config, s: State) {
    && s.exec.Valid()
    && s.permits + |s.prep| + (if s.fetcher == Holding then 1 else 0) == c.fanout
    && |s.queue| <= c.Capacity()
    && |s.exec.Items()| <= c.BatchLimit()
  }

  ghost predicate History(s: State)
    requires s.exec.Valid()
  {
    && Justified(s.log)
    && (forall m | m in s.prep && s.prep[m] in {Skipping, Acking} :: PreparedNone(m) in s.log)
    && ExecHistory(s.exec, s.log)
  }

  ghost predicate Inv(c: Config, s: State) {
    Bounds(c, s) && OnePlace(s) && History(s)
  }

  lemma {:induction false} BoundsKept(c: Config, s: State, a: Action)
    requires Bounds(c, s) && OnePlace(s) && Enabled(c, s, a)
    ensures Bounds(c, Step(c, s, a))
  {
    match a
    case FetchMsg(m) =>
      assert Places(s, m) == 0;
    case Task(m, t) =>
      TaskBoundsKept(c, s, m, t);
    case Exec(x) =>
      ExecStepConserves(s.exec, x);
    case _ =>
  }

  lemma TaskBoundsKept(c: Config, s: State, m: Msg, t: TaskAct)
    requires Bounds(c, s) && Enabled(c, s, Task(m, t))
    ensures Bounds(c, ApplyMove(s, m, TaskStep(m, s.prep[m], t)))
  {
    match TaskStep(m, s.prep[m], t)
    case Stay(stage) => assert |s.prep[m := stage]| == |s.prep|;
    case StaySaying(stage, _) => assert |s.prep[m := stage]| == |s.prep|;
    case _ => assert |s.prep - {m}| == |s.prep| - 1;
  }

  lemma SettleAppend(log: seq<Event>, e: Event, m: Msg)
    ensures SettleCount(log + [e], m) == SettleCount(log, m) + if e.Settles(m) then 1 else 0
  {
    assert (log + [e])[..|log|] == log;
  }

  lemma JustifiedAppend(log: seq<Event>, e: Event)
    requires Justified(log) && Caused(e, log)
    ensures Justified(log + [e])
  {
    forall i | 0 <= i < |log + [e]|
      ensures Caused((log + [e])[i], (log + [e])[..i])
    {
      assert (log + [e])[..i] == if i < |log| then log[..i] else log;
    }
  }

  lemma {:induction false} PlaceKept(c: Config, s: State, a: Action, m: Msg)
    requires Bounds(c, s) && OnePlace(s) && Enabled(c, s, a)
    requires Step(c, s, a).exec.Valid()
    ensures Places(Step(c, s, a), m) == if m in Step(c, s, a).fetched then 1 else 0
  {
    assert Places(s, m) == if m in s.fetched then 1 else 0;
    match a
    case Task(n, act) =>
      assert Places(s, n) == if n in s.fetched then 1 else 0;
      TaskPlaceKept(s, n, TaskStep(n, s.prep[n], act), m);
    case Take => TakePlaceKept(c, s, m);
    case Exec(x) =>
      ExecStepConserves(s.exec, x);
      var (e, event) := ExecStep(s.exec, x);
      ExecPlaceKept(s, e, event, m);
    case ExecutorDies => LossPlaceKept(s, m);
    case Drain =>
      assert Places(s, s.queue[0]) == if s.queue[0] in s.fetched then 1 else 0;
    case _ =>
  }

  lemma {:induction false} CountConcat(a: seq<Msg>, b: seq<Msg>, m: Msg)
    ensures Count(a + b, m) == Count(a, m) + Count(b, m)
  {
    if a == [] {
      assert a + b == b;
    } else {
      assert (a + b)[1..] == a[1..] + b;
      CountConcat(a[1..], b, m);
    }
  }

  lemma {:induction false} CountIn(items: seq<Msg>, m: Msg)
    ensures m in items <==> Count(items, m) > 0
  {
    if items != [] {
      CountIn(items[1..], m);
    }
  }

  lemma TakePlaceKept(c: Config, s: State, m: Msg)
    requires s.exec.Valid() && Enabled(c, s, Take)
    ensures Places(Step(c, s, Take), m) == Places(s, m)
  {
    CountConcat(s.exec.Items(), [s.queue[0]], m);
  }

  lemma ExecPlaceKept(s: State, e: Executor, event: Option<Event>, m: Msg)
    requires s.exec.Valid() && e.Valid() && Conserves(s.exec.Items(), event, e.Items())
    ensures Places(s.(exec := e, log := Say(s.log, event)), m) == Places(s, m)
  {
    if event.Some? {
      SettleAppend(s.log, event.value, m);
    }
    if SettlesOne(event) {
      CountConcat([event.value.msg], e.Items(), m);
    }
  }

  lemma LossPlaceKept(s: State, m: Msg)
    requires s.exec.Valid() && Places(s, m) <= 1
    ensures var lost := s.(exec := Dead, abandoned := s.abandoned + (set n | n in s.exec.Items()));
            Places(lost, m) == Places(s, m)
  {
    CountIn(s.exec.Items(), m);
  }

  // A task settles only its own delivery, and only when it ends.
  predicate Proper(n: Msg, move: TaskMove) {
    && (move.StaySaying? ==> move.event.PreparedNone?)
    && (move.Settle? ==> move.event.Settles(n))
  }

  lemma StayPlaceKept(s: State, n: Msg, stage: Stage, m: Msg)
    requires s.exec.Valid() && n in s.prep
    ensures Places(ApplyMove(s, n, Stay(stage)), m) == Places(s, m)
  {
  }

  lemma LogPlaceKept(s: State, e: Event, m: Msg)
    requires s.exec.Valid() && e.PreparedNone?
    ensures Places(s.(log := s.log + [e]), m) == Places(s, m)
  {
    ExecPlaceKept(s, s.exec, Some(e), m);
    assert s.(exec := s.exec, log := Say(s.log, Some(e))) == s.(log := s.log + [e]);
  }

  lemma SayPlaceKept(s: State, n: Msg, stage: Stage, e: Event, m: Msg)
    requires s.exec.Valid() && n in s.prep && e.PreparedNone?
    ensures Places(ApplyMove(s, n, StaySaying(stage, e)), m) == Places(s, m)
  {
    var t := ApplyMove(s, n, Stay(stage));
    StayPlaceKept(s, n, stage, m);
    LogPlaceKept(t, e, m);
    assert ApplyMove(s, n, StaySaying(stage, e)) == t.(log := t.log + [e]);
  }

  lemma SettlePlaceKept(s: State, n: Msg, e: Event, m: Msg)
    requires s.exec.Valid() && n in s.prep && e.Settles(n)
    ensures Places(ApplyMove(s, n, Settle(e)), m) == Places(s, m)
  {
    SettleAppend(s.log, e, m);
  }

  lemma EnqueuePlaceKept(s: State, n: Msg, m: Msg)
    requires s.exec.Valid() && n in s.prep
    ensures Places(ApplyMove(s, n, Enqueue), m) == Places(s, m)
  {
    CountConcat(s.queue, [n], m);
  }

  lemma AbandonPlaceKept(s: State, n: Msg, m: Msg)
    requires s.exec.Valid() && n in s.prep && Places(s, n) == 1
    ensures Places(ApplyMove(s, n, Abandon), m) == Places(s, m)
  {
    assert n !in s.abandoned;
  }

  lemma TaskPlaceKept(s: State, n: Msg, move: TaskMove, m: Msg)
    requires s.exec.Valid() && n in s.prep && Places(s, n) == 1 && Proper(n, move)
    ensures Places(ApplyMove(s, n, move), m) == Places(s, m)
  {
    match move
    case Stay(stage) => StayPlaceKept(s, n, stage, m);
    case StaySaying(stage, e) => SayPlaceKept(s, n, stage, e, m);
    case Settle(e) => SettlePlaceKept(s, n, e, m);
    case Enqueue => EnqueuePlaceKept(s, n, m);
    case Abandon => AbandonPlaceKept(s, n, m);
  }

  lemma HistoryKept(c: Config, s: State, a: Action)
    requires Inv(c, s) && Enabled(c, s, a)
    ensures Step(c, s, a).exec.Valid() && History(Step(c, s, a))
  {
    match a
    case FetchMsg(m) =>
      assert Places(s, m) == 0;
    case Task(m, t) =>
      TaskHistoryKept(s, m, t);
    case Exec(x) =>
      ExecStepIsCaused(s.exec, x, s.log);
      var (_, event) := ExecStep(s.exec, x);
      if event.Some? {
        JustifiedAppend(s.log, event.value);
      }
    case _ =>
  }

  lemma TaskHistoryKept(s: State, m: Msg, t: TaskAct)
    requires s.exec.Valid() && History(s) && m in s.prep && TaskMay(s.prep[m], t, false, s.stopped)
    ensures History(ApplyMove(s, m, TaskStep(m, s.prep[m], t)))
  {
    match TaskStep(m, s.prep[m], t)
    case StaySaying(_, e) => JustifiedAppend(s.log, e);
    case Settle(e) => JustifiedAppend(s.log, e);
    case _ =>
  }

  lemma {:induction false} RunKeepsInv(c: Config, actions: seq<Action>)
    requires Run(c, actions).Some?
    ensures Inv(c, Run(c, actions).value)
  {
    if actions != [] {
      var before, a := actions[..|actions| - 1], actions[|actions| - 1];
      RunKeepsInv(c, before);
      var s := Run(c, before).value;
      BoundsKept(c, s, a);
      forall m ensures Places(Step(c, s, a), m) == if m in Step(c, s, a).fetched then 1 else 0 {
        PlaceKept(c, s, a, m);
      }
      HistoryKept(c, s, a);
    }
  }

  /**
   Every interleaving: each fetched delivery is in exactly one place (so it is
   settled at most once), every ack follows a publish of that delivery's own
   batch output or a prepare that returned None, and the number of deliveries
   in hand is bounded.
   */
  lemma {:induction false} LaneIsSafe(c: Config, actions: seq<Action>)
    requires Run(c, actions).Some?
    ensures Safe(c, Run(c, actions).value)
  {
    RunKeepsInv(c, actions);
  }

  // Nothing raised and nothing was cancelled.
  predicate Calm(a: Action) {
    !(a.Task? && a.t.Raised?) && !a.ExecutorDies? && !a.Drain?
  }

  predicate Idle(s: State) {
    s.prep == map[] && s.queue == [] && s.exec.Waiting?
  }

  lemma {:induction false} CalmRunAbandonsNothing(c: Config, actions: seq<Action>)
    requires Run(c, actions).Some? && forall a | a in actions :: Calm(a)
    ensures Run(c, actions).value.abandoned == {}
  {
    if actions != [] {
      CalmRunAbandonsNothing(c, actions[..|actions| - 1]);
      assert Calm(actions[|actions| - 1]);
    }
  }

  /** A lane that went idle without a raised bus call has settled every delivery exactly once. */
  lemma {:induction false} IdleLaneSettledEverything(c: Config, actions: seq<Action>, m: Msg)
    requires Run(c, actions).Some? && forall a | a in actions :: Calm(a)
    requires Idle(Run(c, actions).value) && m in Run(c, actions).value.fetched
    ensures SettleCount(Run(c, actions).value.log, m) == 1
  {
    RunKeepsInv(c, actions);
    CalmRunAbandonsNothing(c, actions);
    assert Places(Run(c, actions).value, m) == 1;
  }

  // ------------------------------------------------------------ every delivery gets its turn

  // What prepare tasks and the executor do, as against fetching and stopping.
  predicate Works(a: Action) {
    a.Task? || a.Take? || a.Exec? || a.ExecutorDies? || a.Drain?
  }

  // How many steps of work a prepare task and its delivery can still take.
  function TaskEffort(stage: Stage): nat {
    match stage
    case Parsing => 11
    case Preparing => 10
    case Putting => 9
    case Skipping => 2
    case Terming => 1
    case Naking => 1
    case Acking => 1
  }

  const QUEUED_EFFORT := 8

  function PrepEffort(prep: map<Msg, Stage>, order: seq<Msg>): nat {
    if order == [] then 0 else
    (if order[0] in prep then TaskEffort(prep[order[0]]) else 0) + PrepEffort(prep, order[1..])
  }

  function ExecEffort(e: Executor): nat {
    match e
    case Waiting => 0
    case Collecting(batch) => 5 * |batch| + 2
    case Gpu(batch, rest) => (if |batch| == 1 then 4 else 5 * |batch| + 1) + 5 * |rest|
    case NakAll(batch, rest) => |batch| + 5 * |rest|
    case Emitting(stage, todo, _, _, _, rest) =>
      if todo == [] then 0 else
      (match stage case ToPublish => 3 case ToAck => 2 case ToNak => 1) + 3 * |todo[1..]| + 5 * |rest|
    case Dead => 0
  }

  function Remaining(s: State, order: seq<Msg>): nat
    requires s.exec.Valid()
  {
    PrepEffort(s.prep, order) + QUEUED_EFFORT * |s.queue| + ExecEffort(s.exec) + if s.exec.Dead? then 0 else 1
  }

  // The deliveries of a run in the order they were fetched.
  function Order(actions: seq<Action>): seq<Msg> {
    if actions == [] then [] else
    var a := actions[|actions| - 1];
    Order(actions[..|actions| - 1]) + if a.FetchMsg? then [a.m] else []
  }

  function Work(actions: seq<Action>): nat {
    if actions == [] then 0 else
    Work(actions[..|actions| - 1]) + if Works(actions[|actions| - 1]) then 1 else 0
  }

  lemma {:induction false} PrepEffortAppend(prep: map<Msg, Stage>, order: seq<Msg>, m: Msg)
    ensures PrepEffort(prep, order + [m]) == PrepEffort(prep, order) + if m in prep then TaskEffort(prep[m]) else 0
  {
    if order != [] {
      assert (order + [m])[1..] == order[1..] + [m];
      PrepEffortAppend(prep, order[1..], m);
    }
  }

  // Only one task changed: its effort, counted once, is the difference.
  lemma {:induction false} PrepEffortChanges(before: map<Msg, Stage>, after: map<Msg, Stage>, order: seq<Msg>, m: Msg)
    requires forall n | n != m :: (n in before <==> n in after) && (n in before ==> before[n] == after[n])
    requires Count(order, m) <= 1
    ensures PrepEffort(after, order) + (if Count(order, m) == 1 && m in before then TaskEffort(before[m]) else 0) ==
            PrepEffort(before, order) + (if Count(order, m) == 1 && m in after then TaskEffort(after[m]) else 0)
  {
    if order != [] {
      PrepEffortChanges(before, after, order[1..], m);
    }
  }

  lemma ExecStepCosts(e: Executor, x: ExecAct)
    requires e.Valid() && ExecMay(e, x)
    ensures ExecStep(e, x).0.Valid() && ExecEffort(ExecStep(e, x).0) < ExecEffort(e)
    ensures !ExecStep(e, x).0.Dead?
  {
  }

  lemma TaskStepCosts(s: State, m: Msg, t: TaskAct, order: seq<Msg>)
    requires s.exec.Valid() && m in s.prep && TaskMay(s.prep[m], t, false, s.stopped) && Count(order, m) == 1
    ensures Remaining(ApplyMove(s, m, TaskStep(m, s.prep[m], t)), order) < Remaining(s, order)
  {
    PrepEffortChanges(s.prep, ApplyMove(s, m, TaskStep(m, s.prep[m], t)).prep, order, m);
  }

  // Every step of work uses up some of the remaining work.
  lemma WorkCosts(c: Config, s: State, a: Action, order: seq<Msg>)
    requires s.exec.Valid() && Enabled(c, s, a) && Works(a) && Step(c, s, a).exec.Valid()
    requires forall m | m in s.prep :: Count(order, m) == 1
    ensures Remaining(Step(c, s, a), order) < Remaining(s, order)
  {
    match a
    case Task(m, t) => TaskStepCosts(s, m, t, order);
    case Exec(x) => ExecStepCosts(s.exec, x);
    case _ =>
  }

  lemma FetchedAfter(c: Config, s: State, a: Action)
    requires s.exec.Valid() && Enabled(c, s, a)
    ensures a.FetchMsg? ==> a.m !in s.fetched
    ensures Step(c, s, a).fetched == s.fetched + if a.FetchMsg? then {a.m} else {}
  {
  }

  // The order lists each fetched delivery once.
  ghost predicate Lists(order: seq<Msg>, fetched: set<Msg>) {
    |order| == |fetched| && forall m :: Count(order, m) == if m in fetched then 1 else 0
  }

  lemma ListsOneMore(order: seq<Msg>, fetched: set<Msg>, m: Msg)
    requires Lists(order, fetched) && m !in fetched
    ensures Lists(order + [m], fetched + {m})
  {
    forall n ensures Count(order + [m], n) == if n in fetched + {m} then 1 else 0 {
      CountConcat(order, [m], n);
    }
  }

  lemma {:induction false} OrderIsFetched(c: Config, actions: seq<Action>)
    requires Run(c, actions).Some?
    ensures Lists(Order(actions), Run(c, actions).value.fetched)
  {
    if actions != [] {
      var n := |actions| - 1;
      var s, a := Run(c, actions[..n]).value, actions[n];
      OrderIsFetched(c, actions[..n]);
      FetchedAfter(c, s, a);
      if a.FetchMsg? {
        ListsOneMore(Order(actions[..n]), s.fetched, a.m);
      } else {
        assert Order(actions[..n]) + [] == Order(actions[..n]) && s.fetched + {} == s.fetched;
      }
    }
  }

  lemma PrepIsFetched(s: State, m: Msg)
    requires s.exec.Valid() && OnePlace(s) && m in s.prep
    ensures m in s.fetched
  {
    assert Places(s, m) == if m in s.fetched then 1 else 0;
  }

  // A delivery brings 11 steps of work.
  lemma FetchCosts(c: Config, s: State, m: Msg, order: seq<Msg>)
    requires s.exec.Valid() && OnePlace(s) && Enabled(c, s, FetchMsg(m)) && Lists(order, s.fetched)
    ensures Remaining(Step(c, s, FetchMsg(m)), order + [m]) <= Remaining(s, order) + 11
  {
    PrepEffortAppend(s.prep[m := Parsing], order, m);
    PrepEffortChanges(s.prep, s.prep[m := Parsing], order, m);
  }

  // The work behind and the work ahead, after one more action.
  lemma StepKeepsBudget(c: Config, s: State, a: Action, order: seq<Msg>, work: nat)
    requires s.exec.Valid() && OnePlace(s) && Enabled(c, s, a) && Step(c, s, a).exec.Valid()
    requires Lists(order, s.fetched) && work + Remaining(s, order) <= 1 + 11 * |s.fetched|
    ensures work + (if Works(a) then 1 else 0)
            + Remaining(Step(c, s, a), order + if a.FetchMsg? then [a.m] else [])
            <= 1 + 11 * |Step(c, s, a).fetched|
  {
    FetchedAfter(c, s, a);
    assert order + [] == order;
    if Works(a) {
      forall m | m in s.prep ensures Count(order, m) == 1 { PrepIsFetched(s, m); }
      WorkCosts(c, s, a, order);
    } else if a.FetchMsg? {
      FetchCosts(c, s, a.m, order);
    }
  }

  /** Over every run, the steps of work taken and those remaining are at most 11 for each delivery. */
  lemma {:induction false} WorkIsBounded(c: Config, actions: seq<Action>)
    requires Run(c, actions).Some?
    ensures Run(c, actions).value.exec.Valid()
    ensures Work(actions) + Remaining(Run(c, actions).value, Order(actions)) <=
            1 + 11 * |Run(c, actions).value.fetched|
  {
    RunKeepsInv(c, actions);
    if actions != [] {
      var n := |actions| - 1;
      WorkIsBounded(c, actions[..n]);
      RunKeepsInv(c, actions[..n]);
      OrderIsFetched(c, actions[..n]);
      StepKeepsBudget(c, Run(c, actions[..n]).value, actions[n], Order(actions[..n]), Work(actions[..n]));
    }
  }

  /** As long as the executor lives and a delivery is unsettled, some task or the executor can go on. */
  lemma NothingIsStuck(c: Config, s: State) returns (a: Action)
    requires s.exec.Valid() && !s.exec.Dead? && Unsettled(s) > 0
    ensures Enabled(c, s, a) && Works(a) && Calm(a)
  {
    if !s.exec.Waiting? {
      a := Exec(ExecutorGoesOn(s.exec));
    } else if s.queue != [] {
      a := Take;
    } else {
      var m :| m in s.prep;
      a := Task(m, TaskGoesOn(s.prep[m]));
    }
  }

  function ExecutorGoesOn(e: Executor): (x: ExecAct)
    requires !e.Waiting? && !e.Dead?
    ensures ExecMay(e, x)
  {
    match e
    case Collecting(_) => StartBatch
    case Gpu(_, _) => GpuRaises
    case NakAll(_, _) => BatchNaked
    case Emitting(stage, _, _, _, _, _) => if stage == ToNak then ItemNaked else PublishOrAckRaised
  }

  function TaskGoesOn(stage: Stage): (t: TaskAct)
    ensures TaskMay(stage, t, false, false) && !t.Raised?
  {
    match stage
    case Parsing => PayloadBad
    case Preparing => PrepareRaised
    case Putting => Put
    case Skipping => SkipDone
    case _ => BusDone
  }

  /**
   So a run in which no bus call raises settles everything it fetches: it can go on while anything
   is unsettled, and when it cannot, every delivery has been settled exactly once.
   */
  lemma {:induction false} CalmRunSettlesEverything(c: Config, actions: seq<Action>, m: Msg)
    requires Run(c, actions).Some? && forall a | a in actions :: Calm(a)
    requires m in Run(c, actions).value.fetched && SettleCount(Run(c, actions).value.log, m) != 1
    ensures exists a :: Works(a) && Calm(a) && Run(c, actions + [a]).Some?
  {
    var s := Run(c, actions).value;
    RunKeepsInv(c, actions);
    CalmRunAbandonsNothing(c, actions);
    CalmExecutorLives(c, actions);
    SomewhereIsUnsettled(s, m);
    var a := NothingIsStuck(c, s);
    assert (actions + [a])[..|actions|] == actions;
  }

  lemma {:induction false} CalmExecutorLives(c: Config, actions: seq<Action>)
    requires Run(c, actions).Some? && forall a | a in actions :: Calm(a)
    ensures !Run(c, actions).value.exec.Dead?
  {
    if actions != [] {
      var n := |actions| - 1;
      CalmExecutorLives(c, actions[..n]);
      assert Calm(actions[n]);
      if actions[n].Exec? { ExecStepCosts(Run(c, actions[..n]).value.exec, actions[n].x); }
    }
  }

  lemma SomewhereIsUnsettled(s: State, m: Msg)
    requires s.exec.Valid() && OnePlace(s) && s.abandoned == {} && m in s.fetched && SettleCount(s.log, m) != 1
    ensures Unsettled(s) > 0
  {
    assert Places(s, m) == 1;
    CountIn(s.queue, m);
    CountIn(s.exec.Items(), m);
  }

  // The executor is gone, the fetcher is not, and these deliveries wait.
  predicate Stranded(s: State, waiting: seq<Msg>) {
    s.exec.Dead? && !s.stopped && waiting <= s.queue
  }

  predicate NoStop(actions: seq<Action>) {
    forall i | 0 <= i < |actions| :: !actions[i].Stop?
  }

  lemma StrandedStays(c: Config, s: State, a: Action, waiting: seq<Msg>)
    requires Stranded(s, waiting) && Enabled(c, s, a) && !a.Stop?
    ensures Stranded(Step(c, s, a), waiting)
  {
  }

  lemma {:induction false} RunStaysStranded(c: Config, before: seq<Action>, after: seq<Action>, waiting: seq<Msg>)
    requires Run(c, before + after).Some?
    ensures Run(c, before).Some?
    ensures Stranded(Run(c, before).value, waiting) && NoStop(after) ==>
              Stranded(Run(c, before + after).value, waiting)
  {
    if after == [] {
      assert before + after == before;
    } else {
      var n := |after| - 1;
      assert before + after == (before + after[..n]) + [after[n]];
      LastStep(c, before + after[..n], after[n]);
      RunStaysStranded(c, before, after[..n], waiting);
      if Stranded(Run(c, before).value, waiting) && NoStop(after) {
        StrandedStays(c, Run(c, before + after[..n]).value, after[n], waiting);
      }
    }
  }

  lemma LastStep(c: Config, before: seq<Action>, a: Action)
    requires Run(c, before + [a]).Some?
    ensures Run(c, before).Some? && Run(c, before).value.exec.Valid() && Enabled(c, Run(c, before).value, a)
    ensures Run(c, before + [a]) == Some(Step(c, Run(c, before).value, a))
  {
    assert (before + [a])[..|before|] == before;
  }

  /**
   A nak that raises ends the executor while the fetcher goes on: from then to shutdown whatever
   is queued stays queued, and is not settled.
   */
  lemma {:induction false} DeadExecutorStrandsTheQueue(c: Config, before: seq<Action>, after: seq<Action>, m: Msg)
    requires Run(c, before).Some? && Run(c, before + after).Some?
    ensures var s, t := Run(c, before).value, Run(c, before + after).value;
            s.exec.Dead? && !s.stopped && m in s.queue && NoStop(after) ==>
              m in t.queue && SettleCount(t.log, m) == 0
  {
    RunStaysStranded(c, before, after, Run(c, before).value.queue);
    RunKeepsInv(c, before + after);
    QueuedIsUnsettled(Run(c, before + after).value, m);
  }

  lemma QueuedIsUnsettled(s: State, m: Msg)
    requires s.exec.Valid() && OnePlace(s)
    ensures m in s.queue ==> SettleCount(s.log, m) == 0
  {
    CountIn(s.queue, m);
    assert Places(s, m) <= 1;
  }

  lemma Extends(c: Config, before: seq<Action>, s: State, a: Action, t: State)
    requires Run(c, before) == Some(s) && s.exec.Valid() && Enabled(c, s, a) && Step(c, s, a) == t
    ensures Run(c, before + [a]) == Some(t)
  {
    assert (before + [a])[..|before|] == before;
  }

  // One delivery from the fetch to the queue.
  function Prepared(m: Msg): seq<Action> {
    [Acquire] + [FetchMsg(m)] + [Task(m, PayloadOk)] + [Task(m, PrepareOk)] + [Task(m, Put)]
  }

  // The first two of these steps, and the other three.
  lemma RunFetches(c: Config, before: seq<Action>, s: State, m: Msg)
    requires Run(c, before) == Some(s) && s.exec.Valid()
    requires s.fetcher == Ready && !s.stopped && s.permits > 0 && m !in s.fetched && m !in s.prep
    ensures Run(c, before + [Acquire] + [FetchMsg(m)]) == Some(Fetching(s, m, Parsing))
  {
    var s1 := s.(fetcher := Holding, permits := s.permits - 1);
    Extends(c, before, s, Acquire, s1);
    Extends(c, before + [Acquire], s1, FetchMsg(m), Fetching(s, m, Parsing));
  }

  function Fetching(s: State, m: Msg, stage: Stage): State
    requires s.permits > 0
  {
    s.(permits := s.permits - 1, fetched := s.fetched + {m}, prep := s.prep[m := stage])
  }

  lemma FetchingMoves(c: Config, s: State, m: Msg, stage: Stage, t: TaskAct, next: Stage)
    requires s.exec.Valid() && s.permits > 0 && !t.Put?
    requires TaskMay(stage, t, false, false) && TaskStep(m, stage, t) == Stay(next)
    ensures Enabled(c, Fetching(s, m, stage), Task(m, t))
    ensures Step(c, Fetching(s, m, stage), Task(m, t)) == Fetching(s, m, next)
  {
    assert s.prep[m := stage][m := next] == s.prep[m := next];
  }

  lemma FetchingEnds(c: Config, s: State, m: Msg)
    requires s.exec.Valid() && s.permits > 0 && m !in s.prep && |s.queue| < c.Capacity()
    ensures Enabled(c, Fetching(s, m, Putting), Task(m, Put))
    ensures Step(c, Fetching(s, m, Putting), Task(m, Put)) == Queueing(s, m)
  {
    assert s.prep[m := Putting] - {m} == s.prep;
  }

  function Queueing(s: State, m: Msg): State {
    s.(fetched := s.fetched + {m}, queue := s.queue + [m])
  }

  lemma RunPrepares(c: Config, before: seq<Action>, s: State, m: Msg)
    requires Run(c, before) == Some(s) && s.exec.Valid()
    requires s.fetcher == Ready && !s.stopped && s.permits > 0 && m !in s.fetched && m !in s.prep
    requires |s.queue| < c.Capacity()
    ensures Run(c, before + Prepared(m)) == Some(Queueing(s, m))
  {
    var b2 := before + [Acquire] + [FetchMsg(m)];
    RunFetches(c, before, s, m);
    FetchingMoves(c, s, m, Parsing, PayloadOk, Preparing);
    FetchingMoves(c, s, m, Preparing, PrepareOk, Putting);
    FetchingEnds(c, s, m);
    Extends(c, b2, Fetching(s, m, Parsing), Task(m, PayloadOk), Fetching(s, m, Preparing));
    Extends(c, b2 + [Task(m, PayloadOk)], Fetching(s, m, Preparing), Task(m, PrepareOk), Fetching(s, m, Putting));
    Extends(c, b2 + [Task(m, PayloadOk)] + [Task(m, PrepareOk)], Fetching(s, m, Putting), Task(m, Put), Queueing(s, m));
    assert before + Prepared(m) == b2 + [Task(m, PayloadOk)] + [Task(m, PrepareOk)] + [Task(m, Put)];
  }

  // One delivery is taken for a batch, and another is queued meanwhile.
  function TwoPrepared(): seq<Action> { Prepared(0) + [Take] + Prepared(1) }

  // The GPU fails on the first, and then its nak does.
  function StrandingRun(): seq<Action> {
    TwoPrepared() + [Exec(StartBatch)] + [Exec(GpuRaises)] + [ExecutorDies]
  }

  function Pair(c: Config, e: Executor): State {
    Init(c).(fetched := {0, 1}, queue := [1], exec := e)
  }

  lemma {:induction false} TwoArePrepared(c: Config)
    requires c.fanout > 0
    ensures Run(c, TwoPrepared()) == Some(Pair(c, Collecting([0])))
  {
    var s0, b1 := Init(c), Prepared(0);
    var s1 := s0.(fetched := {0}, queue := [0]);
    assert [] + b1 == b1 && s0.fetched + {0} == {0} && s0.queue + [0] == [0];
    RunPrepares(c, [], s0, 0);
    var s2 := s1.(queue := [], exec := Collecting([0]));
    Extends(c, b1, s1, Take, s2);
    assert s2.fetched + {1} == {0, 1} && s2.queue + [1] == [1];
    RunPrepares(c, b1 + [Take], s2, 1);
  }

  /** A run that strands a delivery without a shutdown. */
  lemma {:induction false} RaisedNakStrands(c: Config)
    requires c.fanout > 0
    ensures Run(c, StrandingRun()).Some?
    ensures var s := Run(c, StrandingRun()).value; s.exec.Dead? && !s.stopped && 1 in s.queue
  {
    var b, s, t := TwoPrepared(), Pair(c, Gpu([0], [])), Pair(c, NakAll([0], []));
    TwoArePrepared(c);
    Extends(c, b, Pair(c, Collecting([0])), Exec(StartBatch), s);
    Extends(c, b + [Exec(StartBatch)], s, Exec(GpuRaises), t);
    Extends(c, b + [Exec(StartBatch)] + [Exec(GpuRaises)], t, ExecutorDies, Step(c, t, ExecutorDies));
  }
}
