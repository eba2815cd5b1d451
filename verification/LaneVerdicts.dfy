/**
 How the batched lane settles a delivery, read off what happened to it: its own prepare, the GPU
 calls on it, and the publish and ack of its own result.
 */
module LaneVerdicts {
  import opened Options
  import opened BatchedLane

  datatype Hap =
    | BadPayload
    | PrepFailed
    | NothingPrepared
    | BatchFailed             // the GPU call raised on it alone, or returned another number of results
    | Returned(out: Output)   // the GPU call returned this for it
    | WasPublished
    | SendFailed              // the publish or the ack of its result raised

  function TaskHaps(t: TaskAct): set<Hap> {
    match t
    case PayloadBad => {BadPayload}
    case PrepareRaised => {PrepFailed}
    case PrepareNone => {NothingPrepared}
    case _ => {}
  }

  // The results that a GPU call on this batch returned for m.
  function Results(batch: seq<Msg>, outs: seq<Output>, m: Msg): set<Hap>
    requires |batch| == |outs|
  {
    set i | 0 <= i < |batch| && batch[i] == m :: Returned(outs[i])
  }

  function ExecHaps(e: Executor, x: ExecAct, m: Msg): set<Hap>
    requires e.Valid() && ExecMay(e, x)
  {
    match x
    case GpuRaises => if e.batch == [m] then {BatchFailed} else {}
    case GpuReturns(outs) =>
      if m !in e.batch then {} else if |outs| != |e.batch| then {BatchFailed} else Results(e.batch, outs, m)
    case PublishOk => if e.todo[0] == m then {WasPublished} else {}
    case PublishOrAckRaised => if e.todo[0] == m then {SendFailed} else {}
    case _ => {}
  }

  function HapsOf(c: Config, s: State, a: Action, m: Msg): set<Hap>
    requires s.exec.Valid() && Enabled(c, s, a)
  {
    if a.Task? && a.m == m then TaskHaps(a.t)
    else if a.Exec? then ExecHaps(s.exec, a.x, m)
    else {}
  }

  function History(c: Config, actions: seq<Action>, m: Msg): set<Hap>
    requires Run(c, actions).Some?
  {
    if actions == [] then {} else
    var n := |actions| - 1;
    History(c, actions[..n], m) + HapsOf(c, Run(c, actions[..n]).value, actions[n], m)
  }

  // ------------------------------------------------------------ what fits each place

  ghost predicate TaskFits(stage: Stage, h: set<Hap>) {
    match stage
    case Parsing => h == {}
    case Preparing => h == {}
    case Putting => h == {}
    case Terming => h == {BadPayload}
    case Naking => h == {PrepFailed}
    case Skipping => h == {NothingPrepared}
    case Acking => h == {NothingPrepared}
  }

  // The result in hand, its publish and its ack.
  ghost predicate EmitFits(stage: EmitStage, out: Output, h: set<Hap>) {
    match stage
    case ToPublish => h == {Returned(out)}
    case ToAck => h == {Returned(out), WasPublished}
    case ToNak => {Returned(out), SendFailed} <= h <= {Returned(out), WasPublished, SendFailed}
  }

  ghost predicate ExecFits(e: Executor, m: Msg, h: set<Hap>)
    requires e.Valid()
  {
    match e
    case Waiting => true
    case Collecting(batch) => m in batch ==> h == {}
    case Gpu(batch, rest) => m in batch || m in rest ==> h == {}
    case NakAll(batch, rest) => (m in batch ==> h == {BatchFailed}) && (m in rest ==> h == {})
    case Emitting(stage, todo, outs, _, _, rest) =>
      && (todo[0] == m ==> EmitFits(stage, outs[0], h))
      && (forall i | 0 < i < |todo| && todo[i] == m :: h == {Returned(outs[i])})
      && (m in rest ==> h == {})
    case Dead => true
  }

  ghost predicate AckFits(log: seq<Event>, m: Msg, h: set<Hap>) {
    h == {NothingPrepared} || exists o :: h == {Returned(o), WasPublished} && Published(m, o) in log
  }

  ghost predicate NakFits(h: set<Hap>) {
    || h == {PrepFailed} || h == {BatchFailed}
    || exists o :: {Returned(o), SendFailed} <= h <= {Returned(o), WasPublished, SendFailed}
  }

  ghost predicate LogFits(log: seq<Event>, m: Msg, h: set<Hap>) {
    && (Acked(m) in log ==> AckFits(log, m, h))
    && (Naked(m) in log ==> NakFits(h))
    && (Termed(m) in log ==> h == {BadPayload})
    && (forall o | Published(m, o) in log :: Returned(o) in h)
    && (WasPublished in h ==> exists o :: Published(m, o) in log)
  }

  ghost predicate Fits(s: State, m: Msg, h: set<Hap>)
    requires s.exec.Valid()
  {
    && (m !in s.fetched ==> h == {})
    && (m in s.prep ==> TaskFits(s.prep[m], h))
    && (m in s.queue ==> h == {})
    && ExecFits(s.exec, m, h)
    && LogFits(s.log, m, h)
  }

  // ------------------------------------------------------------ one step of the executor

  // The event an executor step makes visible, if it is about m.
  ghost predicate EventFits(event: Option<Event>, log: seq<Event>, m: Msg, h: set<Hap>) {
    && (event == Some(Acked(m)) ==> AckFits(log, m, h))
    && (event == Some(Naked(m)) ==> NakFits(h))
    && event != Some(Termed(m))
    && (event.Some? && event.value.Published? && event.value.msg == m ==> Returned(event.value.out) in h)
  }

  lemma NotElsewhere(front: seq<Msg>, rest: seq<Msg>, m: Msg)
    requires front != [] && Count(front + rest, m) <= 1 && front[0] == m
    ensures m !in front[1..] && m !in rest
  {
    CountConcat(front, rest, m);
    CountIn(front[1..], m);
    CountIn(rest, m);
  }

  lemma AfterBatchFits(rest: seq<Msg>, m: Msg, h: set<Hap>)
    requires m in rest ==> h == {}
    ensures AfterBatch(rest).Valid() && ExecFits(AfterBatch(rest), m, h)
  {
  }

  lemma GpuStepFits(e: Executor, x: ExecAct, m: Msg, h: set<Hap>, log: seq<Event>)
    requires e.Valid() && ExecMay(e, x) && (e.Collecting? || e.Gpu?)
    requires ExecFits(e, m, h) && Count(e.Items(), m) <= 1
    ensures var (e', event) := ExecStep(e, x); e'.Valid() && ExecFits(e', m, h + ExecHaps(e, x, m))
    ensures EventFits(ExecStep(e, x).1, log, m, h + ExecHaps(e, x, m))
  {
    match x
    case StartBatch =>
    case GpuRaises => GpuRaiseFits(e, m, h);
    case GpuReturns(outs) => GpuReturnFits(e, outs, m, h);
  }

  lemma GpuRaiseFits(e: Executor, m: Msg, h: set<Hap>)
    requires e.Valid() && e.Gpu? && ExecFits(e, m, h) && Count(e.Items(), m) <= 1
    ensures ExecStep(e, GpuRaises).0.Valid()
    ensures ExecFits(ExecStep(e, GpuRaises).0, m, h + ExecHaps(e, GpuRaises, m))
  {
    if e.batch == [m] {
      NotElsewhere(e.batch, e.rest, m);
    } else {
      assert h + {} == h;
      assert |e.batch| > 1 ==> forall n | n in e.batch[1..] + e.rest :: n in e.batch || n in e.rest;
    }
  }

  // The batch has one result for m, at its place.
  lemma OneResult(batch: seq<Msg>, rest: seq<Msg>, outs: seq<Output>, m: Msg, i: nat)
    requires |batch| == |outs| && i < |batch| && batch[i] == m && Count(batch + rest, m) <= 1
    ensures Results(batch, outs, m) == {Returned(outs[i])} && m !in rest
  {
    forall k | 0 <= k < |batch| && batch[k] == m ensures k == i {
      CountTwice(batch, k, i, m);
      CountConcat(batch, rest, m);
    }
    CountConcat(batch, rest, m);
    CountIn(batch, m);
    CountIn(rest, m);
  }

  lemma {:induction false} CountTwice(items: seq<Msg>, i: nat, k: nat, m: Msg)
    requires i < |items| && k < |items| && items[i] == m && items[k] == m
    ensures i != k ==> Count(items, m) >= 2
  {
    if i == 0 {
      if k > 0 {
        assert items[1..][k - 1] == m;
        CountIn(items[1..], m);
      }
    } else if k == 0 {
      assert items[1..][i - 1] == m;
      CountIn(items[1..], m);
    } else {
      CountTwice(items[1..], i - 1, k - 1, m);
    }
  }

  lemma GpuReturnFits(e: Executor, outs: seq<Output>, m: Msg, h: set<Hap>)
    requires e.Valid() && e.Gpu? && ExecFits(e, m, h) && Count(e.Items(), m) <= 1
    ensures var t := ExecStep(e, GpuReturns(outs)).0;
            t.Valid() && ExecFits(t, m, h + ExecHaps(e, GpuReturns(outs), m))
  {
    if m in e.batch {
      var i: nat :| i < |e.batch| && e.batch[i] == m;
      CountConcat(e.batch, e.rest, m);
      CountIn(e.batch, m);
      CountIn(e.rest, m);
      if |outs| == |e.batch| { OneResult(e.batch, e.rest, outs, m, i); ResultsAt(e.batch, e.rest, outs, m); }
    } else {
      assert h + {} == h;
    }
  }

  lemma ResultsAt(batch: seq<Msg>, rest: seq<Msg>, outs: seq<Output>, m: Msg)
    requires |batch| == |outs| && Count(batch + rest, m) <= 1
    ensures forall i | 0 <= i < |batch| && batch[i] == m :: Results(batch, outs, m) == {Returned(outs[i])}
  {
    forall i | 0 <= i < |batch| && batch[i] == m ensures Results(batch, outs, m) == {Returned(outs[i])} {
      OneResult(batch, rest, outs, m, i);
    }
  }

  lemma NakStepFits(e: Executor, m: Msg, h: set<Hap>, log: seq<Event>)
    requires e.Valid() && e.NakAll? && ExecFits(e, m, h) && Count(e.Items(), m) <= 1
    ensures ExecStep(e, BatchNaked).0.Valid()
    ensures m in ExecStep(e, BatchNaked).0.Items() ==> ExecFits(ExecStep(e, BatchNaked).0, m, h)
    ensures EventFits(ExecStep(e, BatchNaked).1, log, m, h)
  {
    AfterBatchFits(e.rest, m, h);
  }

  // The result of m is still to be sent, or is being sent.
  lemma NextItemFits(e: Executor, m: Msg, h: set<Hap>)
    requires e.Valid() && e.Emitting? && ExecFits(e, m, h) && Count(e.Items(), m) <= 1
    ensures NextItem(e).Valid() && ExecFits(NextItem(e), m, h)
  {
    if e.todo[0] == m {
      NotElsewhere(e.todo, e.rest, m);
    }
    AfterBatchFits(e.rest, m, if e.todo[0] == m then {} else h);
    assert |e.todo| > 1 ==> forall i | 0 <= i < |e.todo| - 1 ::
        e.todo[1..][i] == e.todo[i + 1] && e.outs[1..][i] == e.outs[i + 1];
  }

  lemma SendStepFits(e: Executor, x: ExecAct, m: Msg, h: set<Hap>)
    requires e.Valid() && ExecMay(e, x) && (x.PublishOk? || x.PublishOrAckRaised?)
    requires ExecFits(e, m, h) && Count(e.Items(), m) <= 1
    ensures var (e', event) := ExecStep(e, x); e'.Valid() && ExecFits(e', m, h + ExecHaps(e, x, m))
    ensures var event := ExecStep(e, x).1;
            event.Some? && event.value.msg == m ==> event.value.Published? && Returned(event.value.out) in h
    ensures ExecStep(e, x).1.Some? ==> ExecStep(e, x).1.value.Published?
  {
    if e.todo[0] == m {
      NotElsewhere(e.todo, e.rest, m);
      assert forall i | 0 < i < |e.todo| :: e.todo[i] == e.todo[1..][i - 1];
    } else {
      assert h + {} == h;
    }
  }

  lemma EmitStepFits(e: Executor, x: ExecAct, m: Msg, h: set<Hap>, log: seq<Event>)
    requires e.Valid() && ExecMay(e, x) && e.Emitting?
    requires ExecFits(e, m, h) && Count(e.Items(), m) <= 1 && LogFits(log, m, h)
    ensures var (e', event) := ExecStep(e, x); e'.Valid() && ExecFits(e', m, h + ExecHaps(e, x, m))
    ensures EventFits(ExecStep(e, x).1, log, m, h + ExecHaps(e, x, m))
  {
    match x
    case ItemAcked =>
      assert h + {} == h;
      NextItemFits(e, m, h);
    case ItemNaked =>
      assert h + {} == h;
      NextItemFits(e, m, h);
    case _ => SendStepFits(e, x, m, h);
  }

  lemma ExecStepFits(e: Executor, x: ExecAct, m: Msg, h: set<Hap>, log: seq<Event>)
    requires e.Valid() && ExecMay(e, x)
    requires ExecFits(e, m, h) && Count(e.Items(), m) <= 1 && LogFits(log, m, h)
    ensures var (e', event) := ExecStep(e, x); e'.Valid() && ExecFits(e', m, h + ExecHaps(e, x, m))
    ensures EventFits(ExecStep(e, x).1, log, m, h + ExecHaps(e, x, m))
  {
    if e.Collecting? || e.Gpu? {
      GpuStepFits(e, x, m, h, log);
    } else if e.NakAll? {
      assert h + {} == h;
      NakStepFits(e, m, h, log);
    } else {
      EmitStepFits(e, x, m, h, log);
    }
  }

  // ------------------------------------------------------------ one step of the lane

  lemma {:induction false} SettledInLog(log: seq<Event>, m: Msg)
    ensures SettleCount(log, m) > 0 <==> Acked(m) in log || Naked(m) in log || Termed(m) in log
  {
    if log != [] {
      var n := |log| - 1;
      SettledInLog(log[..n], m);
      assert log == log[..n] + [log[n]];
    }
  }

  // What a delivery in the log has behind it: it is nowhere else.
  lemma SettledIsGone(s: State, m: Msg)
    requires s.exec.Valid() && OnePlace(s)
    ensures Acked(m) in s.log || Naked(m) in s.log || Termed(m) in s.log ==>
              m !in s.prep && m !in s.queue && m !in s.exec.Items()
    ensures Count(s.exec.Items(), m) <= 1
  {
    assert Places(s, m) <= 1;
    SettledInLog(s.log, m);
    CountIn(s.queue, m);
    CountIn(s.exec.Items(), m);
  }

  lemma NoHapsElsewhere(c: Config, s: State, a: Action, m: Msg)
    requires s.exec.Valid() && Enabled(c, s, a) && (a.Task? ==> m !in s.prep) && m !in s.exec.Items()
    ensures HapsOf(c, s, a, m) == {}
  {
  }

  lemma SentBefore(log: seq<Event>, e: Event, m: Msg, h: set<Hap>)
    requires WasPublished in h ==> exists o :: Published(m, o) in log
    ensures WasPublished in h ==> exists o :: Published(m, o) in log + [e]
  {
    if WasPublished in h {
      var o :| Published(m, o) in log;
      assert Published(m, o) in log + [e];
    }
  }

  lemma AckedBefore(log: seq<Event>, e: Event, m: Msg, h: set<Hap>)
    requires AckFits(log, m, h)
    ensures AckFits(log + [e], m, h)
  {
    if h != {NothingPrepared} {
      var o :| h == {Returned(o), WasPublished} && Published(m, o) in log;
      assert Published(m, o) in log + [e];
    }
  }

  // One more event, with the happenings up to it.
  lemma LogAppends(log: seq<Event>, e: Event, m: Msg, before: set<Hap>, h: set<Hap>)
    requires LogFits(log, m, before) && before <= h
    requires Acked(m) in log || Naked(m) in log || Termed(m) in log ==> h == before
    requires WasPublished in h ==> WasPublished in before || (e.Published? && e.msg == m)
    requires EventFits(Some(e), log, m, h) || (e == Termed(m) && h == {BadPayload})
    ensures LogFits(log + [e], m, h)
  {
    if Acked(m) in log { AckedBefore(log, e, m, h); }
    if e == Acked(m) { AckedBefore(log, e, m, h); }
    if WasPublished in before { SentBefore(log, e, m, before); }
    if e.Published? && e.msg == m { assert Published(m, e.out) in log + [e]; }
  }

  lemma LogStays(log: seq<Event>, m: Msg, before: set<Hap>, h: set<Hap>)
    requires LogFits(log, m, before) && before <= h
    requires Acked(m) in log || Naked(m) in log || Termed(m) in log ==> h == before
    requires WasPublished in h ==> WasPublished in before
    ensures LogFits(log, m, h)
  {
  }

  // The event of a task, about its own delivery.
  lemma TaskEventFits(s: State, n: Msg, t: TaskAct, m: Msg, h: set<Hap>)
    requires n in s.prep && TaskMay(s.prep[n], t, false, s.stopped) && (n == m ==> TaskFits(s.prep[n], h))
    ensures var move := TaskStep(n, s.prep[n], t);
            && (move.StaySaying? ==> move.event == PreparedNone(n))
            && (move.Settle? ==> move.event.Settles(n))
            && (n == m && move.Settle? ==>
                  || (move.event == Acked(m) && h == {NothingPrepared})
                  || (move.event == Naked(m) && h == {PrepFailed})
                  || (move.event == Termed(m) && h == {BadPayload}))
            && (n == m && (move.Settle? || move.Enqueue? || move.Abandon?) ==> TaskHaps(t) == {})
  {
  }

  lemma TaskLogFits(s: State, n: Msg, t: TaskAct, m: Msg, h: set<Hap>)
    requires s.exec.Valid() && OnePlace(s) && Fits(s, m, h)
    requires n in s.prep && TaskMay(s.prep[n], t, false, s.stopped)
    ensures var h' := h + if n == m then TaskHaps(t) else {};
            LogFits(ApplyMove(s, n, TaskStep(n, s.prep[n], t)).log, m, h')
  {
    var h', move := h + (if n == m then TaskHaps(t) else {}), TaskStep(n, s.prep[n], t);
    SettledIsGone(s, m);
    TaskEventFits(s, n, t, m, h);
    match move
    case StaySaying(_, e) => LogAppends(s.log, e, m, h, h');
    case Settle(e) => LogAppends(s.log, e, m, h, h');
    case _ => LogStays(s.log, m, h, h');
  }

  lemma TaskPrepFits(s: State, n: Msg, t: TaskAct, m: Msg, h: set<Hap>)
    requires s.exec.Valid() && Fits(s, m, h)
    requires n in s.prep && TaskMay(s.prep[n], t, false, s.stopped)
    ensures var h', u := h + (if n == m then TaskHaps(t) else {}), ApplyMove(s, n, TaskStep(n, s.prep[n], t));
            && (m in u.prep ==> TaskFits(u.prep[m], h'))
            && (m in u.queue ==> m in s.queue || (n == m && h' == {}))
  {
    assert h + {} == h;
  }

  lemma TaskKeepsFit(c: Config, s: State, n: Msg, t: TaskAct, m: Msg, h: set<Hap>)
    requires s.exec.Valid() && OnePlace(s) && Fits(s, m, h) && Enabled(c, s, Task(n, t))
    ensures Fits(ApplyMove(s, n, TaskStep(n, s.prep[n], t)), m, h + HapsOf(c, s, Task(n, t), m))
  {
    assert h + {} == h;
    InPrep(s, n);
    TaskLogFits(s, n, t, m, h);
    TaskPrepFits(s, n, t, m, h);
  }

  // A delivery with a prepare task has been fetched, and is with nobody else.
  lemma InPrep(s: State, n: Msg)
    requires s.exec.Valid() && OnePlace(s) && n in s.prep
    ensures n in s.fetched && n !in s.queue && n !in s.exec.Items()
  {
    assert Places(s, n) == 1;
    CountIn(s.queue, n);
    CountIn(s.exec.Items(), n);
  }

  lemma InExec(s: State, m: Msg)
    requires s.exec.Valid() && OnePlace(s) && m in s.exec.Items()
    ensures m in s.fetched && m !in s.queue && m !in s.prep
  {
    assert Places(s, m) <= 1;
    CountIn(s.queue, m);
    CountIn(s.exec.Items(), m);
  }

  lemma PublishHaps(e: Executor, x: ExecAct, m: Msg)
    requires e.Valid() && ExecMay(e, x) && WasPublished in ExecHaps(e, x, m)
    ensures var event := ExecStep(e, x).1; event.Some? && event.value.Published? && event.value.msg == m
  {
  }

  lemma ExecLogFits(c: Config, s: State, x: ExecAct, m: Msg, h: set<Hap>)
    requires s.exec.Valid() && OnePlace(s) && Fits(s, m, h) && Enabled(c, s, Exec(x))
    ensures LogFits(Say(s.log, ExecStep(s.exec, x).1), m, h + ExecHaps(s.exec, x, m))
  {
    var h', event := h + ExecHaps(s.exec, x, m), ExecStep(s.exec, x).1;
    SettledIsGone(s, m);
    ExecStepFits(s.exec, x, m, h, s.log);
    if m !in s.exec.Items() {
      NoHapsElsewhere(c, s, Exec(x), m);
      assert ExecHaps(s.exec, x, m) == {} && h' == h;
    }
    if WasPublished in ExecHaps(s.exec, x, m) { PublishHaps(s.exec, x, m); }
    if event.Some? { LogAppends(s.log, event.value, m, h, h'); } else { LogStays(s.log, m, h, h'); }
  }

  lemma ExecKeepsFit(c: Config, s: State, x: ExecAct, m: Msg, h: set<Hap>)
    requires s.exec.Valid() && OnePlace(s) && Fits(s, m, h) && Enabled(c, s, Exec(x))
    ensures Step(c, s, Exec(x)).exec.Valid() && Fits(Step(c, s, Exec(x)), m, h + HapsOf(c, s, Exec(x), m))
  {
    SettledIsGone(s, m);
    ExecStepFits(s.exec, x, m, h, s.log);
    ExecLogFits(c, s, x, m, h);
    if m in s.exec.Items() {
      InExec(s, m);
    } else {
      NoHapsElsewhere(c, s, Exec(x), m);
      assert h + {} == h;
    }
  }

  lemma TakeKeepsFit(c: Config, s: State, m: Msg, h: set<Hap>)
    requires s.exec.Valid() && Fits(s, m, h) && Enabled(c, s, Take)
    ensures Fits(Step(c, s, Take), m, h)
  {
    assert s.queue == [s.queue[0]] + s.queue[1..];
  }

  lemma StepKeepsFit(c: Config, s: State, a: Action, m: Msg, h: set<Hap>)
    requires s.exec.Valid() && OnePlace(s) && Fits(s, m, h) && Enabled(c, s, a)
    ensures Step(c, s, a).exec.Valid() && Fits(Step(c, s, a), m, h + HapsOf(c, s, a, m))
  {
    assert h + {} == h;
    match a
    case Task(n, t) => TaskKeepsFit(c, s, n, t, m, h);
    case Exec(x) => ExecKeepsFit(c, s, x, m, h);
    case Take => TakeKeepsFit(c, s, m, h);
    case _ =>
  }

  lemma {:induction false} RunFits(c: Config, actions: seq<Action>, m: Msg)
    requires Run(c, actions).Some?
    ensures Run(c, actions).value.exec.Valid() && Fits(Run(c, actions).value, m, History(c, actions, m))
  {
    if actions != [] {
      var n := |actions| - 1;
      RunFits(c, actions[..n], m);
      RunKeepsInv(c, actions[..n]);
      StepKeepsFit(c, Run(c, actions[..n]).value, actions[n], m, History(c, actions[..n], m));
    }
  }

  // ------------------------------------------------------------ the verdict

  // The publish or the ack of its own result raised, or it never had one.
  predicate Failed(h: set<Hap>) {
    PrepFailed in h || BatchFailed in h || SendFailed in h
  }

  /**
   A delivery that is settled is termed if and only if its payload was bad; it is naked if and only
   if its prepare raised, or the GPU call on it alone raised or one on its batch came back with
   another number of results, or its publish or ack raised; and else it is acked, and then prepare
   had nothing for it, or the very result that the GPU call returned for it was published.
   */
  lemma {:induction false} VerdictIsExact(c: Config, actions: seq<Action>, m: Msg)
    requires Run(c, actions).Some? && SettleCount(Run(c, actions).value.log, m) > 0
    ensures var log, h := Run(c, actions).value.log, History(c, actions, m);
            && (Termed(m) in log <==> BadPayload in h)
            && (Naked(m) in log <==> Failed(h))
            && (Acked(m) in log <==> BadPayload !in h && !Failed(h))
            && (Acked(m) in log ==> AckFits(log, m, h))
  {
    RunFits(c, actions, m);
    SettledInLog(Run(c, actions).value.log, m);
  }

  /** A result is published only for the delivery it was returned for, before it is settled or not. */
  lemma {:induction false} PublishesItsOwn(c: Config, actions: seq<Action>, m: Msg, out: Output)
    requires Run(c, actions).Some? && Published(m, out) in Run(c, actions).value.log
    ensures Returned(out) in History(c, actions, m)
  {
    RunFits(c, actions, m);
  }

  // Action k of the run, taken in this state, made it happen.
  ghost predicate HappensAt(c: Config, actions: seq<Action>, k: nat, m: Msg, h: Hap) {
    k < |actions| && HappensAfter(c, actions[..k], actions[k], m, h)
  }

  ghost predicate HappensAfter(c: Config, before: seq<Action>, a: Action, m: Msg, h: Hap) {
    && Run(c, before).Some? && Run(c, before).value.exec.Valid() && Enabled(c, Run(c, before).value, a)
    && h in HapsOf(c, Run(c, before).value, a, m)
  }

  lemma HappensInPrefix(c: Config, actions: seq<Action>, n: nat, k: nat, m: Msg, h: Hap)
    requires k < n <= |actions|
    ensures HappensAt(c, actions[..n], k, m, h) <==> HappensAt(c, actions, k, m, h)
  {
    assert actions[..n][..k] == actions[..k];
  }

  /** What has happened is the doing of an action of the run. */
  lemma {:induction false} HapIsAnAction(c: Config, actions: seq<Action>, m: Msg, h: Hap) returns (k: nat)
    requires Run(c, actions).Some? && h in History(c, actions, m)
    ensures HappensAt(c, actions, k, m, h)
  {
    var n := |actions| - 1;
    if h in History(c, actions[..n], m) {
      k := HapIsAnAction(c, actions[..n], m, h);
      HappensInPrefix(c, actions, n, k, m, h);
    } else {
      k := n;
    }
  }

  /** So only a bad payload is termed, and without failures of its own every settled delivery is acked. */
  lemma {:induction false} OnlyBadPayloadsAreTermed(c: Config, actions: seq<Action>, m: Msg)
    requires Run(c, actions).Some? && Termed(m) in Run(c, actions).value.log
    ensures Task(m, PayloadBad) in actions && Task(m, PrepareRaised) !in actions
  {
    RunFits(c, actions, m);
    TaskHapsAreActions(c, actions, m);
  }

  lemma {:induction false} TaskHapsAreActions(c: Config, actions: seq<Action>, m: Msg)
    requires Run(c, actions).Some?
    ensures BadPayload in History(c, actions, m) <==> Task(m, PayloadBad) in actions
    ensures PrepFailed in History(c, actions, m) <==> Task(m, PrepareRaised) in actions
    ensures NothingPrepared in History(c, actions, m) <==> Task(m, PrepareNone) in actions
  {
    if actions != [] {
      var n := |actions| - 1;
      TaskHapsAreActions(c, actions[..n], m);
      TaskHapsOf(c, Run(c, actions[..n]).value, actions[n], m);
      InOrLast(actions, Task(m, PayloadBad));
      InOrLast(actions, Task(m, PrepareRaised));
      InOrLast(actions, Task(m, PrepareNone));
    }
  }

  lemma TaskHapsOf(c: Config, s: State, a: Action, m: Msg)
    requires s.exec.Valid() && Enabled(c, s, a)
    ensures BadPayload in HapsOf(c, s, a, m) <==> a == Task(m, PayloadBad)
    ensures PrepFailed in HapsOf(c, s, a, m) <==> a == Task(m, PrepareRaised)
    ensures NothingPrepared in HapsOf(c, s, a, m) <==> a == Task(m, PrepareNone)
  {
  }

  lemma InOrLast(actions: seq<Action>, a: Action)
    requires actions != []
    ensures a in actions <==> a in actions[..|actions| - 1] || a == actions[|actions| - 1]
  {
  }

  // ------------------------------------------------------------ in which order

  // The deliveries in the order in which their prepare tasks put them.
  function Puts(actions: seq<Action>): seq<Msg> {
    if actions == [] then [] else
    var a := actions[|actions| - 1];
    Puts(actions[..|actions| - 1]) + if a.Task? && a.t.Put? then [a.m] else []
  }

  // How many have left the queue.
  function Gone(actions: seq<Action>): nat {
    if actions == [] then 0 else
    var a := actions[|actions| - 1];
    Gone(actions[..|actions| - 1]) + if a.Take? || a.Drain? then 1 else 0
  }

  // The queue holds what was put last, and a living executor what left the queue last.
  ghost predicate Ordered(s: State, puts: seq<Msg>, gone: nat)
    requires s.exec.Valid()
  {
    && gone <= |puts| && s.queue == puts[gone..]
    && (!s.exec.Dead? ==> |s.exec.Items()| <= gone && s.exec.Items() == puts[gone - |s.exec.Items()|..gone])
  }

  lemma PutKeepsOrder(s: State, puts: seq<Msg>, gone: nat, m: Msg, t: State)
    requires s.exec.Valid() && Ordered(s, puts, gone) && t.exec == s.exec && t.queue == s.queue + [m]
    ensures Ordered(t, puts + [m], gone)
  {
    assert (puts + [m])[gone..] == puts[gone..] + [m];
    if !s.exec.Dead? {
      var n := gone - |s.exec.Items()|;
      assert (puts + [m])[n..gone] == puts[n..gone];
    }
  }

  lemma TakeKeepsOrder(c: Config, s: State, puts: seq<Msg>, gone: nat)
    requires s.exec.Valid() && Ordered(s, puts, gone) && Enabled(c, s, Take)
    ensures Ordered(Step(c, s, Take), puts, gone + 1)
  {
    var n := gone - |s.exec.Items()|;
    assert puts[gone..][0] == puts[gone] && puts[gone..][1..] == puts[gone + 1..];
    assert puts[n..gone + 1] == puts[n..gone] + [puts[gone]];
  }

  lemma ExecKeepsOrder(c: Config, s: State, x: ExecAct, puts: seq<Msg>, gone: nat)
    requires s.exec.Valid() && Ordered(s, puts, gone) && Enabled(c, s, Exec(x))
    ensures Step(c, s, Exec(x)).exec.Valid() && Ordered(Step(c, s, Exec(x)), puts, gone)
  {
    ExecStepConserves(s.exec, x);
    SettledFromTheFront(s.exec.Items(), ExecStep(s.exec, x).1, ExecStep(s.exec, x).0.Items(), puts, gone);
  }

  lemma SettledFromTheFront(items: seq<Msg>, event: Option<Event>, left: seq<Msg>, puts: seq<Msg>, gone: nat)
    requires Conserves(items, event, left) && |items| <= gone <= |puts| && items == puts[gone - |items|..gone]
    ensures |left| <= gone && left == puts[gone - |left|..gone]
  {
    var n := gone - |items|;
    if items != [] { assert puts[n..gone][1..] == puts[n + 1..gone]; }
  }

  lemma StepKeepsOrder(c: Config, s: State, a: Action, puts: seq<Msg>, gone: nat)
    requires s.exec.Valid() && Ordered(s, puts, gone) && Enabled(c, s, a)
    ensures Step(c, s, a).exec.Valid()
    ensures Ordered(Step(c, s, a), puts + if a.Task? && a.t.Put? then [a.m] else [],
                    gone + if a.Take? || a.Drain? then 1 else 0)
  {
    assert puts + [] == puts;
    match a
    case Task(m, t) => if t.Put? { PutKeepsOrder(s, puts, gone, m, Step(c, s, a)); }
    case Take => TakeKeepsOrder(c, s, puts, gone);
    case Exec(x) => ExecKeepsOrder(c, s, x, puts, gone);
    case Drain => assert puts[gone..][1..] == puts[gone + 1..];
    case _ =>
  }

  /** First put, first taken, first settled: at any time the executor's items are the last ones taken. */
  lemma {:induction false} FirstPutFirstSettled(c: Config, actions: seq<Action>)
    requires Run(c, actions).Some?
    ensures Run(c, actions).value.exec.Valid() && Ordered(Run(c, actions).value, Puts(actions), Gone(actions))
  {
    if actions != [] {
      var n := |actions| - 1;
      FirstPutFirstSettled(c, actions[..n]);
      StepKeepsOrder(c, Run(c, actions[..n]).value, actions[n], Puts(actions[..n]), Gone(actions[..n]));
    }
  }

  /**
   A GPU call is on all that was collected; only when it has raised on several is it made again on
   each of them alone, the rest waiting.
   */
  lemma BatchRunsTogether(e: Executor, x: ExecAct)
    requires e.Valid() && ExecMay(e, x) && ExecStep(e, x).0.Gpu?
    ensures var f := ExecStep(e, x).0;
            if x.StartBatch? then f.batch == e.Items() && f.rest == []
            else |f.batch| == 1 && (e.Gpu? ==> x.GpuRaises? && |e.batch| > 1 && f.batch + f.rest == e.Items())
  {
  }
}
