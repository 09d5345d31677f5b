/**
 * `MeasurementTask`: a chart for one input channel. Construction picks
 * the chart's three channels from the channel's `chart_number`; the loop
 * clears and scales the chart, then plots each sample it reads and widens
 * the y axis to the samples' envelope. The thread, its stop event and the
 * sleep between samples are left to the caller: one loop iteration is one
 * call of `Iterate`, and the sample read is its parameter.
 */
module Measurement {
  import opened Wrappers
  import opened PyText
  import opened Commands
  import opened Models
  import opened Channels
  import opened DataBuffer
  import opened Effects

  /** The priority `send_command_callback` uses when none is given. */
  const TaskPriority: int := 5

  /** The x axis shows this many seconds ahead of the newest sample. */
  const XAhead: real := 10.0

  /** The share of the sample range added above and below the y axis. */
  const YMargin: real := 0.2

  /** A task: its channel and the chart's y-axis, control and x-axis channels. */
  datatype Task = Task(channel: Channel, y: int, control: int, x: int)

  /**
   * `MeasurementTask.__init__`. A channel with a `config` must have a chart
   * number and a sample rate; a channel without one fails on the
   * attribute. Python's `//` floors, as Dafny's `/` does for a positive
   * divisor.
   */
  function NewTask(ch: Channel): (r: Result<Task>)
    ensures ch.config.None? ==> r == Err(AttributeError)
    ensures ch.config.Some? ==> (r.Ok? <==> ch.config.value.chartNumber.Some? && ch.config.value.sampleRate.Some?)
    ensures r.Err? ==> r.error in {AttributeError, ValueError}
    ensures r.Ok? ==> r.value.channel == ch && Some(r.value.y) == ch.config.value.chartNumber
    ensures r.Ok? ==> r.value.control <= r.value.y < r.value.x && r.value.x == r.value.control + 10 && r.value.control % 10 == 0
  {
    match ch.config
    case None => Err(AttributeError)
    case Some(cfg) =>
      if cfg.chartNumber.None? || cfg.sampleRate.None? then Err(ValueError)
      else
        var y := cfg.chartNumber.value;
        Ok(Task(ch, y, (y / 10) * 10, (y / 10) * 10 + 10))
  }

  /** The chart channels of chart number 705 are 700 (control) and 710 (x axis). */
  lemma ChartChannelsExample(ch: Channel)
    requires ch.config == Some(Config(Some(true), Some(IntNum(1)), Some(705)))
    ensures NewTask(ch).Ok? && NewTask(ch).value.control == 700 && NewTask(ch).value.x == 710
  {
  }

  /** `stop()`: the join timeout, the smaller of the sample rate plus one second and ten seconds. */
  function StopTimeout(ch: Channel): (t: real)
    ensures t <= 10.0
    ensures ch.config.None? || ch.config.value.sampleRate.None? ==> t == 10.0
    ensures ch.config.Some? && ch.config.value.sampleRate.Some? ==>
              var sr := Real(ch.config.value.sampleRate.value);
              t <= sr + 1.0 && (t == sr + 1.0 || t == 10.0)
  {
    if ch.config.Some? && ch.config.value.sampleRate.Some? then
      var limit := Real(ch.config.value.sampleRate.value) + 1.0;
      if limit < 10.0 then limit else 10.0
    else 10.0
  }

  // ---------------------------------------------------------------------
  // The measurement loop
  // ---------------------------------------------------------------------

  /** The chart set-up sent before the first sample: clear, then each axis limit as a value and its label. */
  function PrologueSpecs(c: int): seq<Spec> {
    [Spec(c, 'S', PyStr("Clear")),
     Spec(c, 'F', PyInt(0)), Spec(c, 'S', PyStr("Xmin")),
     Spec(c, 'F', PyInt(11)), Spec(c, 'S', PyStr("Xmax")),
     Spec(c, 'F', PyInt(0)), Spec(c, 'S', PyStr("Ymin")),
     Spec(c, 'F', PyInt(10)), Spec(c, 'S', PyStr("Ymax"))]
  }

  /** The commands of the chart set-up on control channel `c`. */
  function PrologueCommands(c: int): seq<Command> {
    [Cmd(c, TextVal("Clear")),
     Cmd(c, FloatVal(0.0)), Cmd(c, TextVal("Xmin")),
     Cmd(c, FloatVal(11.0)), Cmd(c, TextVal("Xmax")),
     Cmd(c, FloatVal(0.0)), Cmd(c, TextVal("Ymin")),
     Cmd(c, FloatVal(10.0)), Cmd(c, TextVal("Ymax"))]
  }

  function Prologue(fc: FloatCodec, t: Task): (o: Out)
    ensures o.raised.None? <==> 0 <= t.control <= MaxChannel
    ensures o.raised.None? ==> o.sent == Sends(PrologueCommands(t.control), TaskPriority)
    ensures o.raised.Some? ==> o == Out([], Some(ValueError))
  {
    if 0 <= t.control <= MaxChannel then
      PrologueFits(fc, t.control);
      Build(fc, PrologueSpecs(t.control), TaskPriority)
    else
      BadChannelFirst(fc, PrologueSpecs(t.control), TaskPriority);
      Build(fc, PrologueSpecs(t.control), TaskPriority)
  }

  lemma PrologueFits(fc: FloatCodec, c: int)
    requires 0 <= c <= MaxChannel
    ensures Build(fc, PrologueSpecs(c), TaskPriority) == Out(Sends(PrologueCommands(c), TaskPriority), None)
  {
    PrologueAllFit(fc, c);
    BuildFits(fc, PrologueSpecs(c), TaskPriority);
    PrologueIntents(c);
  }

  lemma PrologueAllFit(fc: FloatCodec, c: int)
    requires 0 <= c <= MaxChannel
    ensures forall i :: 0 <= i < |PrologueSpecs(c)| ==> Fits(fc, PrologueSpecs(c)[i])
  {
  }

  lemma PrologueIntents(c: int)
    ensures Intents(PrologueSpecs(c)) == PrologueCommands(c)
  {
  }

  /** The loop's local state: the iteration count, the samples so far and the y range last sent. */
  datatype Loop = Loop(idx: nat, ys: seq<real>, yMin: real, yMax: real)

  const LoopStart: Loop := Loop(0, [], 0.0, 0.0)

  function MinOf(ys: seq<real>): (m: real)
    requires |ys| > 0
    ensures m in ys && forall i :: 0 <= i < |ys| ==> m <= ys[i]
  {
    if |ys| == 1 then ys[0]
    else
      var m := MinOf(ys[..|ys| - 1]);
      assert forall i :: 0 <= i < |ys| - 1 ==> ys[..|ys| - 1][i] == ys[i];
      if ys[|ys| - 1] < m then ys[|ys| - 1] else m
  }

  function MaxOf(ys: seq<real>): (m: real)
    requires |ys| > 0
    ensures m in ys && forall i :: 0 <= i < |ys| ==> ys[i] <= m
  {
    if |ys| == 1 then ys[0]
    else
      var m := MaxOf(ys[..|ys| - 1]);
      assert forall i :: 0 <= i < |ys| - 1 ==> ys[..|ys| - 1][i] == ys[i];
      if ys[|ys| - 1] > m then ys[|ys| - 1] else m
  }

  /** The y range shown for the samples: their span widened by a fifth of it on each side. */
  datatype Range = Range(lo: real, hi: real)

  function Envelope(ys: seq<real>): Range
    requires |ys| > 0
  {
    var adder := (MaxOf(ys) - MinOf(ys)) * YMargin;
    Range(MinOf(ys) - adder, MaxOf(ys) + adder)
  }

  /** Every sample lies inside the envelope, which is never narrower than the samples' span. */
  lemma EnvelopeContains(ys: seq<real>)
    requires |ys| > 0
    ensures forall i :: 0 <= i < |ys| ==> Envelope(ys).lo <= ys[i] <= Envelope(ys).hi
    ensures Envelope(ys).hi - Envelope(ys).lo == (MaxOf(ys) - MinOf(ys)) * 1.4
  {
  }

  /** A new sample only ever widens the envelope. */
  lemma EnvelopeWidens(ys: seq<real>, v: real)
    requires |ys| > 0
    ensures Envelope(ys + [v]).lo <= Envelope(ys).lo && Envelope(ys).hi <= Envelope(ys + [v]).hi
  {
    var zs := ys + [v];
    assert zs[..|zs| - 1] == ys;
  }

  /** One iteration's outcome: what it sent and the loop state after it. */
  datatype Iteration = Iteration(out: Out, next: Loop)

  /** Seconds since the task started, from nanosecond clock readings. */
  function Elapsed(start: int, time: int): real {
    (time - start) as real / 1_000_000_000.0
  }

  /** The x axis moves on every tenth iteration, from the tenth on. */
  predicate MovesX(idx: nat) {
    idx > 1 && idx % 10 == 0
  }

  /** The y range to send after adding the samples `ys`, if it changed from `(lo, hi)`. */
  function Rescale(ys: seq<real>, lo: real, hi: real): Option<Range> {
    if |ys| > 1 && Envelope(ys) != Range(lo, hi) then Some(Envelope(ys)) else None
  }

  /** What an iteration with a sample sends, in order. */
  function IterationSpecs(t: Task, idx: nat, value: real, rel: real, scale: Option<Range>): (specs: seq<Spec>)
    ensures forall i :: 0 <= i < |specs| ==> specs[i].channel in {t.y, t.x, t.control} && specs[i].value != PyNone
  {
    PlotSpecs(t, value, rel) + MoveSpecs(t.control, idx, rel) + ScaleSpecs(t.control, scale)
  }

  /** The new point: the value on the y channel, the elapsed time on the x channel. */
  function PlotSpecs(t: Task, value: real, rel: real): seq<Spec> {
    [Spec(t.y, 'F', PyFloat(value)), Spec(t.x, 'F', PyFloat(rel))]
  }

  /** Every tenth iteration: the x-axis maximum, ten seconds ahead. */
  function MoveSpecs(c: int, idx: nat, rel: real): seq<Spec> {
    if MovesX(idx) then [Spec(c, 'F', PyFloat(rel + XAhead)), Spec(c, 'S', PyStr("Xmax"))] else []
  }

  /** A changed y range: its minimum and maximum, each followed by its keyword. */
  function ScaleSpecs(c: int, scale: Option<Range>): seq<Spec> {
    match scale
    case None => []
    case Some(e) => [Spec(c, 'F', PyFloat(e.lo)), Spec(c, 'S', PyStr("Ymin")),
                     Spec(c, 'F', PyFloat(e.hi)), Spec(c, 'S', PyStr("Ymax"))]
  }

  /** The loop state after a sample: the y range becomes the envelope when it was rescaled. */
  function Advance(st: Loop, ys: seq<real>, scale: Option<Range>): (next: Loop)
    requires scale == Rescale(ys, st.yMin, st.yMax)
    ensures next.idx == st.idx + 1 && next.ys == ys
    ensures |ys| >= 2 ==> Range(next.yMin, next.yMax) == Envelope(ys)
    ensures |ys| < 2 ==> next.yMin == st.yMin && next.yMax == st.yMax
  {
    match scale
    case Some(e) => Loop(st.idx + 1, ys, e.lo, e.hi)
    case None => Loop(st.idx + 1, ys, st.yMin, st.yMax)
  }

  /** Whatever part of an iteration's sends is queued goes to the chart's channels at the task's priority. */
  lemma IterationSentTo(fc: FloatCodec, t: Task, idx: nat, value: real, rel: real, scale: Option<Range>)
    ensures var o := Build(fc, IterationSpecs(t, idx, value, rel, scale), TaskPriority);
            forall s :: s in o.sent ==> s.priority == TaskPriority && s.cmd.Cmd? && s.cmd.channel in {t.y, t.x, t.control}
  {
    var specs := IterationSpecs(t, idx, value, rel, scale);
    var o := Build(fc, specs, TaskPriority);
    BuildSent(fc, specs, TaskPriority);
    assert forall i :: 0 <= i < |o.sent| ==> o.sent[i].cmd.channel == specs[i].channel;
  }

  /**
   * One pass of `_measurement_loop`. `read` is the channel's newest sample,
   * `None` when it returned no data; `start` is the task's start time.
   * The state is updated before the sends that may raise; a raise ends the
   * task's loop.
   */
  function Iterate(fc: FloatCodec, t: Task, start: int, st: Loop, read: Option<Sample>): (r: Iteration)
    ensures r.next.idx == st.idx + 1
    ensures read.None? ==> r == Iteration(Quiet, st.(idx := st.idx + 1))
    ensures read.Some? ==> r.next.ys == st.ys + [read.value.value]
    ensures read.Some? && |r.next.ys| >= 2 ==> Range(r.next.yMin, r.next.yMax) == Envelope(r.next.ys)
    ensures read.Some? && |r.next.ys| < 2 ==> r.next.yMin == st.yMin && r.next.yMax == st.yMax
    ensures forall s :: s in r.out.sent ==> s.priority == TaskPriority && s.cmd.Cmd? && s.cmd.channel in {t.y, t.x, t.control}
  {
    match read
    case None => Iteration(Quiet, st.(idx := st.idx + 1))
    case Some(sample) =>
      var ys := st.ys + [sample.value];
      var scale := Rescale(ys, st.yMin, st.yMax);
      var rel := Elapsed(start, sample.time);
      IterationSentTo(fc, t, st.idx + 1, sample.value, rel, scale);
      Iteration(Build(fc, IterationSpecs(t, st.idx + 1, sample.value, rel, scale), TaskPriority), Advance(st, ys, scale))
  }

  /** A task whose three chart channels are valid. */
  predicate ChartValid(t: Task) {
    0 <= t.control && t.x <= MaxChannel && t.control <= t.y <= t.x
  }

  /** Floats whose text fits in a frame. */
  predicate Short(fc: FloatCodec, x: real) {
    |ShowFloat(fc, x)| <= 240
  }

  /** With a sample, an iteration queues exactly the construction of its sends. */
  lemma IterateBuilds(fc: FloatCodec, t: Task, start: int, st: Loop, sample: Sample)
    ensures var ys := st.ys + [sample.value];
            Iterate(fc, t, start, st, Some(sample)).out
              == Build(fc, IterationSpecs(t, st.idx + 1, sample.value, Elapsed(start, sample.time), Rescale(ys, st.yMin, st.yMax)), TaskPriority)
  {
  }

  /** The y range `scale` as four control commands, none when the range did not change. */
  function ScaleCommands(c: int, scale: Option<Range>): seq<Command> {
    match scale
    case None => []
    case Some(e) => [Cmd(c, FloatVal(e.lo)), Cmd(c, TextVal("Ymin")), Cmd(c, FloatVal(e.hi)), Cmd(c, TextVal("Ymax"))]
  }

  /** The x-axis move of iteration `idx`, if it is one that moves. */
  function MoveCommands(c: int, idx: nat, rel: real): seq<Command> {
    if MovesX(idx) then [Cmd(c, FloatVal(rel + XAhead)), Cmd(c, TextVal("Xmax"))] else []
  }

  lemma IterationSpecsFit(fc: FloatCodec, t: Task, idx: nat, value: real, rel: real, scale: Option<Range>)
    requires ChartValid(t)
    requires Short(fc, value) && Short(fc, rel) && Short(fc, rel + XAhead)
    requires scale.Some? ==> Short(fc, scale.value.lo) && Short(fc, scale.value.hi)
    ensures Build(fc, IterationSpecs(t, idx, value, rel, scale), TaskPriority)
            == Out(Sends([Cmd(t.y, FloatVal(value)), Cmd(t.x, FloatVal(rel))] + MoveCommands(t.control, idx, rel)
                         + ScaleCommands(t.control, scale), TaskPriority), None)
  {
    PlotFits(fc, t, value, rel);
    MoveFits(fc, t.control, idx, rel);
    ScaleFits(fc, t.control, scale);
    BuildFitsJoin(fc, PlotSpecs(t, value, rel), MoveSpecs(t.control, idx, rel), ScaleSpecs(t.control, scale), TaskPriority);
  }

  lemma PlotFits(fc: FloatCodec, t: Task, value: real, rel: real)
    requires ChartValid(t) && Short(fc, value) && Short(fc, rel)
    ensures var specs := PlotSpecs(t, value, rel);
            && (forall i :: 0 <= i < |specs| ==> Fits(fc, specs[i]))
            && Intents(specs) == [Cmd(t.y, FloatVal(value)), Cmd(t.x, FloatVal(rel))]
  {
  }

  lemma MoveFits(fc: FloatCodec, c: int, idx: nat, rel: real)
    requires 0 <= c <= MaxChannel && Short(fc, rel + XAhead)
    ensures var specs := MoveSpecs(c, idx, rel);
            && (forall i :: 0 <= i < |specs| ==> Fits(fc, specs[i]))
            && Intents(specs) == MoveCommands(c, idx, rel)
  {
  }

  lemma ScaleFits(fc: FloatCodec, c: int, scale: Option<Range>)
    requires 0 <= c <= MaxChannel
    requires scale.Some? ==> Short(fc, scale.value.lo) && Short(fc, scale.value.hi)
    ensures var specs := ScaleSpecs(c, scale);
            && (forall i :: 0 <= i < |specs| ==> Fits(fc, specs[i]))
            && Intents(specs) == ScaleCommands(c, scale)
  {
  }

  /**
   * On a valid chart with printable floats an iteration with a sample
   * plots the value and the elapsed time; every tenth iteration (from the
   * tenth on) it moves the x axis to ten seconds ahead; and it re-sends the
   * y range exactly when the envelope of two or more samples differs from
   * the range last sent.
   */
  lemma IterationSends(fc: FloatCodec, t: Task, start: int, st: Loop, sample: Sample)
    requires ChartValid(t)
    requires var ys := st.ys + [sample.value];
             && Short(fc, sample.value) && Short(fc, Elapsed(start, sample.time))
             && Short(fc, Elapsed(start, sample.time) + XAhead)
             && (|ys| >= 2 ==> Short(fc, Envelope(ys).lo) && Short(fc, Envelope(ys).hi))
    ensures var r := Iterate(fc, t, start, st, Some(sample));
            var idx := st.idx + 1;
            var ys := st.ys + [sample.value];
            var rel := Elapsed(start, sample.time);
            var xmove := if MovesX(idx) then [Cmd(t.control, FloatVal(rel + XAhead)), Cmd(t.control, TextVal("Xmax"))] else [];
            var yscale := if |ys| >= 2 && Envelope(ys) != Range(st.yMin, st.yMax)
                          then [Cmd(t.control, FloatVal(Envelope(ys).lo)), Cmd(t.control, TextVal("Ymin")),
                                Cmd(t.control, FloatVal(Envelope(ys).hi)), Cmd(t.control, TextVal("Ymax"))]
                          else [];
            && r.out.raised.None?
            && r.out.sent == Sends([Cmd(t.y, FloatVal(sample.value)), Cmd(t.x, FloatVal(rel))] + xmove + yscale, TaskPriority)
  {
    var ys := st.ys + [sample.value];
    var scale := Rescale(ys, st.yMin, st.yMax);
    IterateBuilds(fc, t, start, st, sample);
    IterationSpecsFit(fc, t, st.idx + 1, sample.value, Elapsed(start, sample.time), scale);
  }

  /** Once the envelope was sent, an iteration whose sample lies inside the span sent no y range again. */
  lemma SteadyRangeQuiet(fc: FloatCodec, t: Task, start: int, st: Loop, sample: Sample)
    requires |st.ys| >= 2 && Range(st.yMin, st.yMax) == Envelope(st.ys)
    requires MinOf(st.ys) <= sample.value <= MaxOf(st.ys)
    ensures var ys := st.ys + [sample.value];
            Envelope(ys) == Envelope(st.ys)
  {
    var ys := st.ys + [sample.value];
    assert ys[..|ys| - 1] == st.ys;
  }

  // ---------------------------------------------------------------------
  // MeasurementTaskManager.initialize_tasks
  // ---------------------------------------------------------------------

  /**
   * Channels that read samples: input channels and input modules, the
   * modules registered as multi channels included.
   */
  predicate InputCapable(c: Channel) {
    c.kind in {InputKind, InputModuleKind, InputMultiKind}
  }

  /** A channel whose config has an `enabled` flag that is set. */
  predicate Enabled(c: Channel) {
    c.config.Some? && c.config.value.enabled == Some(true)
  }

  /** A channel whose config has every setting a task reads. */
  predicate Configured(c: Channel) {
    c.config.Some? && c.config.value.enabled.Some? && c.config.value.chartNumber.Some? && c.config.value.sampleRate.Some?
  }

  /** The channels that get a task: input-capable ones whose config is enabled. */
  function Eligible(cs: seq<Channel>): (r: seq<Channel>)
    ensures forall c :: c in r <==> c in cs && InputCapable(c) && Enabled(c)
  {
    if |cs| == 0 then []
    else
      var c := cs[0];
      (if InputCapable(c) && Enabled(c) then [c] else [])
      + Eligible(cs[1..])
  }

  function TaskChannels(ts: seq<Task>): (cs: seq<Channel>)
    ensures |cs| == |ts|
    ensures forall i :: 0 <= i < |ts| ==> cs[i] == ts[i].channel
  {
    seq(|ts|, i requires 0 <= i < |ts| => ts[i].channel)
  }

  /** The task list after `initialize_tasks`, and the exception that stopped it, if any. */
  datatype Tasks = Tasks(tasks: seq<Task>, error: Option<PyError>)

  /**
   * What `initialize_tasks` does with one channel: nothing for one that
   * reads no samples or is not enabled, a task for an enabled one. An
   * input-capable channel whose config has no `enabled` raises
   * `ValueError`, one without a config fails on the attribute, and
   * construction errors propagate.
   */
  function TaskFor(c: Channel): (r: Result<Option<Task>>)
    ensures r.Ok? && r.value.Some? ==> InputCapable(c) && Enabled(c) && NewTask(c) == Ok(r.value.value)
    ensures r == Ok(None) ==> !(InputCapable(c) && Enabled(c))
    ensures !InputCapable(c) ==> r == Ok(None)
    ensures r.Err? ==> r.error in {AttributeError, ValueError}
  {
    if !InputCapable(c) then Ok(None)
    else
      match c.config
      case None => Err(AttributeError)
      case Some(cfg) =>
        match cfg.enabled
        case None => Err(ValueError)
        case Some(false) => Ok(None)
        case Some(true) =>
          match NewTask(c)
          case Err(e) => Err(e)
          case Ok(task) => Ok(Some(task))
  }

  /**
   * `initialize_tasks` over `get_channels()` order, one channel after the
   * other. The tasks made before a failure stay in the list.
   */
  function InitializeTasks(cs: seq<Channel>): (r: Tasks)
    ensures r.error.None? ==> TaskChannels(r.tasks) == Eligible(cs)
    ensures r.error.Some? ==> r.error.value in {AttributeError, ValueError}
    ensures forall i :: 0 <= i < |r.tasks| ==> NewTask(r.tasks[i].channel) == Ok(r.tasks[i])
  {
    if |cs| == 0 then Tasks([], None)
    else
      match TaskFor(cs[0])
      case Err(e) => Tasks([], Some(e))
      case Ok(None) =>
        assert Eligible(cs) == Eligible(cs[1..]);
        InitializeTasks(cs[1..])
      case Ok(Some(task)) =>
        assert Eligible(cs) == [cs[0]] + Eligible(cs[1..]);
        Prepend(task, InitializeTasks(cs[1..]))
  }

  /** A task in front of the outcome for the remaining channels. */
  function Prepend(task: Task, rest: Tasks): (r: Tasks)
    requires NewTask(task.channel) == Ok(task)
    requires forall i :: 0 <= i < |rest.tasks| ==> NewTask(rest.tasks[i].channel) == Ok(rest.tasks[i])
    ensures r.error == rest.error && |r.tasks| == |rest.tasks| + 1
    ensures TaskChannels(r.tasks) == [task.channel] + TaskChannels(rest.tasks)
    ensures forall i :: 0 <= i < |r.tasks| ==> NewTask(r.tasks[i].channel) == Ok(r.tasks[i])
  {
    Tasks([task] + rest.tasks, rest.error)
  }

  /** A fully configured registry yields one task per enabled input, in order, with no error. */
  lemma {:induction false} InitializeAllConfigured(cs: seq<Channel>)
    requires forall c :: c in cs && InputCapable(c) ==> Configured(c)
    ensures InitializeTasks(cs).error.None?
    ensures |InitializeTasks(cs).tasks| == |Eligible(cs)|
  {
    if |cs| > 0 {
      assert forall c :: c in cs[1..] ==> c in cs;
      InitializeAllConfigured(cs[1..]);
    }
  }

  /**
   * The HX711 weigh-scale module: `add_channels` files it under
   * `multi_channels`, and `initialize_tasks` still gives it a task, since
   * it is an `InputModule`.
   */
  lemma ModuleGetsTask(m: Manager, c: Channel)
    requires c.kind == InputMultiKind && c.name !in m.names
    requires Enabled(c) && Configured(c)
    requires forall d :: d in GetChannels(m) && InputCapable(d) ==> Configured(d)
    ensures AddChannel(m, c).Ok?
    ensures AddChannel(m, c).value.inputs == m.inputs && AddChannel(m, c).value.multis == m.multis + [c]
    ensures var r := InitializeTasks(GetChannels(AddChannel(m, c).value));
            r.error.None? && exists i :: 0 <= i < |r.tasks| && r.tasks[i].channel == c
  {
    var cs := GetChannels(AddChannel(m, c).value);
    assert cs == GetChannels(m) + [c];
    InitializeAllConfigured(cs);
    var r := InitializeTasks(cs);
    assert c in Eligible(cs);
    var i :| 0 <= i < |Eligible(cs)| && Eligible(cs)[i] == c;
    assert TaskChannels(r.tasks)[i] == r.tasks[i].channel;
  }
}
