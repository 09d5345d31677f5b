/**
 * The measurement system's side of the link: the ComVisu start-up
 * commands, and the router that handles each command received from the
 * client (start/stop, the slider test, forwarding to the control task,
 * the keep-alive answer). Threads are abstracted away: starting the
 * measurement is recorded as a flag next to the task list.
 */
module Server {
  import opened Wrappers
  import opened PyText
  import opened Commands
  import opened Effects
  import opened Channels
  import opened Measurement
  import opened PriorityQueue
  import Control

  const StartChannel: int := 900
  const StateLine: int := 901
  const SliderChannel: int := 510
  const FirstControl: int := 800
  const LastControl: int := 899
  const KeepAliveChannel: int := 980
  const KeepAliveLine: int := 981
  const ServerPriority: int := 0
  const LedName: string := "KeepAliveLED"

  /**
   * What the router reads and changes: the hardware registry, the
   * measurement tasks and whether they were started, and the control
   * task's queue.
   */
  datatype Server = Server(hw: MultiHardware, tasks: seq<Task>, running: bool, control: Queue<Command>)

  // ---------------------------------------------------------------------
  // The send queue
  // ---------------------------------------------------------------------

  /** `add_command_to_send_queue` for each send in turn: one `put` each, with the send's priority. */
  function Enqueue(q: Queue<Command>, ss: seq<Sent>): (r: Queue<Command>)
    ensures r.counter == q.counter + |ss|
    ensures Size(r) == Size(q) + |ss|
    ensures r.entries[..Size(q)] == q.entries
    ensures forall i :: 0 <= i < |ss| ==> r.entries[Size(q) + i] == Entry(ss[i].priority, q.counter + i, ss[i].cmd)
    decreases |ss|
  {
    if |ss| == 0 then q
    else
      var r := Enqueue(Put(q, ss[0].cmd, ss[0].priority), ss[1..]);
      assert forall i :: 1 <= i < |ss| ==> ss[1..][i - 1] == ss[i];
      r
  }

  /** Queueing sends of one priority is `put`ting their commands with that priority. */
  lemma EnqueueSends(q: Queue<Command>, cs: seq<Command>, priority: int)
    ensures Enqueue(q, Sends(cs, priority)) == PutAll(q, cs, priority)
  {
    var a := Enqueue(q, Sends(cs, priority));
    var b := PutAll(q, cs, priority);
    assert |a.entries| == |b.entries|;
    forall i | 0 <= i < |a.entries|
      ensures a.entries[i] == b.entries[i]
    {
      if i < Size(q) {
        assert a.entries[i] == a.entries[..Size(q)][i] && b.entries[i] == b.entries[..Size(q)][i];
      } else {
        var j := i - Size(q);
        assert a.entries[Size(q) + j] == Entry(priority, q.counter + j, cs[j]);
      }
    }
  }

  // ---------------------------------------------------------------------
  // init_comvisu
  // ---------------------------------------------------------------------

  /**
   * The start-up commands: the system state shown as stopped, the selector
   * displays 811-815 and the enable display 829 cleared, the five charts
   * cleared.
   */
  const InitSpecs: seq<Spec> :=
    [Spec(StateLine, 'F', PyInt(1)),
     Spec(811, 'F', PyInt(0)), Spec(812, 'F', PyInt(0)), Spec(813, 'F', PyInt(0)), Spec(814, 'F', PyInt(0)), Spec(815, 'F', PyInt(0)),
     Spec(829, 'F', PyInt(0)),
     Spec(700, 'S', PyStr("Clear")), Spec(720, 'S', PyStr("Clear")), Spec(740, 'S', PyStr("Clear")),
     Spec(760, 'S', PyStr("Clear")), Spec(780, 'S', PyStr("Clear"))]

  const InitCommands: seq<Command> :=
    [Cmd(StateLine, FloatVal(1.0)),
     Cmd(811, FloatVal(0.0)), Cmd(812, FloatVal(0.0)), Cmd(813, FloatVal(0.0)), Cmd(814, FloatVal(0.0)), Cmd(815, FloatVal(0.0)),
     Cmd(829, FloatVal(0.0)),
     Cmd(700, TextVal("Clear")), Cmd(720, TextVal("Clear")), Cmd(740, TextVal("Clear")),
     Cmd(760, TextVal("Clear")), Cmd(780, TextVal("Clear"))]

  /** `init_comvisu`: every start-up command at priority 0. */
  function InitComvisu(fc: FloatCodec): (o: Out)
    ensures |o.sent| <= |InitSpecs|
  {
    Build(fc, InitSpecs, ServerPriority)
  }

  lemma InitAllFit(fc: FloatCodec)
    ensures forall i :: 0 <= i < |InitSpecs| ==> Fits(fc, InitSpecs[i])
  {
    assert Printable("Clear");
  }

  lemma InitIntents()
    ensures Intents(InitSpecs) == InitCommands
  {
  }

  /**
   * The start-up commands are all made, and a fresh send queue hands them
   * out in exactly the order they were queued, since they share priority 0.
   */
  lemma InitComvisuQueued(fc: FloatCodec)
    ensures InitComvisu(fc) == Out(Sends(InitCommands, ServerPriority), None)
    ensures Items(Drain(Enqueue(Empty(), InitComvisu(fc).sent))) == InitCommands
  {
    InitAllFit(fc);
    BuildFits(fc, InitSpecs, ServerPriority);
    InitIntents();
    EnqueueSends(Empty(), InitCommands, ServerPriority);
    PutAllDrain(InitCommands, ServerPriority);
  }

  // ---------------------------------------------------------------------
  // The keep-alive LED
  // ---------------------------------------------------------------------

  /** `channel.write(level)` on every occurrence of `c`: only its level changes. */
  function LevelIn(cs: seq<Channel>, c: Channel, level: int): (r: seq<Channel>)
    ensures |r| == |cs|
    ensures forall i :: 0 <= i < |cs| ==> r[i] == if cs[i] == c then c.(level := level) else cs[i]
  {
    seq(|cs|, i requires 0 <= i < |cs| => if cs[i] == c then c.(level := level) else cs[i])
  }

  function Relevel(m: Manager, c: Channel, level: int): (r: Manager)
    ensures GetChannels(r) == LevelIn(GetChannels(m), c, level)
    ensures r.names == m.names
  {
    var r := m.(inputs := LevelIn(m.inputs, c, level), outputs := LevelIn(m.outputs, c, level), multis := LevelIn(m.multis, c, level));
    assert GetChannels(r) == LevelIn(GetChannels(m), c, level);
    r
  }

  /** The written level, kept by the first hardware, where the lookup found the channel. */
  function SetLevel(mh: MultiHardware, c: Channel, level: int): (r: MultiHardware)
    requires |mh.hardware| > 0
    ensures |r.hardware| == |mh.hardware| && r.name == mh.name
    ensures r.hardware[1..] == mh.hardware[1..] && r.hardware[0].name == mh.hardware[0].name
    ensures GetChannels(r.hardware[0].channels) == LevelIn(GetChannels(mh.hardware[0].channels), c, level)
  {
    var h := mh.hardware[0];
    mh.(hardware := [h.(channels := Relevel(h.channels, c, level))] + mh.hardware[1..])
  }

  datatype Toggled = Toggled(hw: MultiHardware, written: Option<int>)

  /**
   * The LED blink: the first `KeepAliveLED` found, if it is a digital
   * output, is written 1 when its level is 0 and 0 otherwise. A failed
   * lookup or a channel of another class is swallowed.
   */
  function ToggleLed(mh: MultiHardware): (r: Toggled)
    ensures r.written.None? ==> r.hw == mh
    ensures r.written.Some? ==> Next(MultiByName(mh, LedName)).Ok? && Next(MultiByName(mh, LedName)).value.kind == DigitalOutputKind
  {
    match Next(MultiByName(mh, LedName))
    case Err(_) => Toggled(mh, None)
    case Ok(c) =>
      if c.kind != DigitalOutputKind then Toggled(mh, None)
      else
        var level := if c.level == 0 then 1 else 0;
        Toggled(SetLevel(mh, c, level), Some(level))
  }

  /** Past the first occurrence of `c`, the search by name finds `c` with its new level. */
  lemma {:induction false} NamedLevelIn(cs: seq<Channel>, c: Channel, level: int)
    requires |Named(cs, c.name)| > 0 && Named(cs, c.name)[0] == c
    ensures |Named(LevelIn(cs, c, level), c.name)| > 0
    ensures Named(LevelIn(cs, c, level), c.name)[0] == c.(level := level)
    decreases |cs|
  {
    var ls := LevelIn(cs, c, level);
    assert ls[1..] == LevelIn(cs[1..], c, level);
    if cs[0].name != c.name {
      assert Named(cs, c.name) == Named(cs[1..], c.name);
      NamedLevelIn(cs[1..], c, level);
    }
  }

  /**
   * A toggle flips a digital output between 0 and non-zero, and the next
   * lookup by name reads back the level written.
   */
  lemma LedToggled(mh: MultiHardware)
    requires Next(MultiByName(mh, LedName)).Ok?
    requires Next(MultiByName(mh, LedName)).value.kind == DigitalOutputKind
    ensures var c := Next(MultiByName(mh, LedName)).value;
            var r := ToggleLed(mh);
            && r.written == Some(if c.level == 0 then 1 else 0)
            && Next(MultiByName(r.hw, LedName)) == Ok(c.(level := r.written.value))
  {
    var c := Next(MultiByName(mh, LedName)).value;
    var level := if c.level == 0 then 1 else 0;
    var m := mh.hardware[0].channels;
    assert MultiByName(mh, LedName).yielded == Named(GetChannels(m), LedName);
    assert c.name == LedName;
    NamedLevelIn(GetChannels(m), c, level);
  }

  // ---------------------------------------------------------------------
  // process_commands
  // ---------------------------------------------------------------------

  /** The text of `Command.type`. */
  function TypeText(v: Value): string {
    [TypeTag(v)]
  }

  /** The console line for the slider test and forwarded control commands, joined with spaces. */
  function ChannelMessage(fc: FloatCodec, ch: int, v: Value): string {
    Join(["Channel: ", IntText(ch), ", type: ", TypeText(v), ", value:", ValueText(fc, v)], " ")
  }

  datatype Routed = Routed(out: Out, server: Server)

  /**
   * 900 with a value equal to 2: the tasks are rebuilt from the registry
   * and started. An error in the rebuild keeps the tasks built so far and
   * ends the step before anything is started.
   */
  function Start(fc: FloatCodec, stamp: string, st: Server): (r: Routed)
    ensures r.server.hw == st.hw && r.server.control == st.control
    ensures r.server.tasks == InitializeTasks(AllChannels(st.hw)).tasks
    ensures r.server.running <==> InitializeTasks(AllChannels(st.hw)).error.None? || st.running
  {
    var t := InitializeTasks(AllChannels(st.hw));
    if t.error.Some? then Routed(Out([], t.error), st.(tasks := t.tasks))
    else Routed(PrintConsole(Quiet, fc, stamp, "Measurement system started"), st.(tasks := t.tasks, running := true))
  }

  /** 900 with any other value: the tasks are stopped, and the system state is shown as 0. */
  function Stop(fc: FloatCodec, stamp: string, st: Server): (r: Routed)
    ensures r.server == st.(running := false)
  {
    var o := PrintConsole(Quiet, fc, stamp, "Measurement system stopped");
    Routed(Then(o, Build(fc, [Spec(StateLine, 'F', PyStr("0"))], ServerPriority)), st.(running := false))
  }

  /** 980: the keep-alive answer on 981 at priority 0, then the LED blink. */
  function KeepAlive(fc: FloatCodec, st: Server): (r: Routed)
    ensures r.server == st.(hw := r.server.hw)
  {
    var o := Build(fc, [Spec(KeepAliveLine, 'F', PyStr("1"))], ServerPriority);
    if o.raised.Some? then Routed(o, st)
    else Routed(o, st.(hw := ToggleLed(st.hw).hw))
  }

  /**
   * One command of `process_commands`. The branches are tried in the
   * source's order, so every command takes exactly one. A blank command
   * gets past the two equality tests and fails in `None >= 800`; `repr`
   * stands for `str(command)`.
   */
  function Route(fc: FloatCodec, stamp: string, repr: Command -> string, st: Server, cmd: Command): (r: Routed)
    ensures cmd.Blank? ==> r == Routed(Out([], Some(TypeError)), st)
    ensures r.server.control != st.control ==> cmd.Cmd? && FirstControl <= cmd.channel <= LastControl
    ensures r.server.hw != st.hw ==> cmd.Cmd? && cmd.channel == KeepAliveChannel
    ensures r.server.tasks != st.tasks || r.server.running != st.running ==> cmd.Cmd? && cmd.channel == StartChannel
  {
    match cmd
    case Blank => Routed(Out([], Some(TypeError)), st)
    case Cmd(ch, v) =>
      if ch == StartChannel then
        if v == FloatVal(2.0) then Start(fc, stamp, st) else Stop(fc, stamp, st)
      else if ch == SliderChannel then
        Routed(PrintConsole(Quiet, fc, stamp, ChannelMessage(fc, ch, v)), st)
      else if FirstControl <= ch <= LastControl then
        var o := PrintConsole(Quiet, fc, stamp, ChannelMessage(fc, ch, v));
        if o.raised.Some? then Routed(o, st)
        else Routed(o, st.(control := Control.AddCommandToTask(st.control, cmd, DefaultPriority)))
      else if ch == KeepAliveChannel then KeepAlive(fc, st)
      else Routed(PrintConsole(Quiet, fc, stamp, "Unknown command: " + repr(cmd)), st)
  }

  /** The outcome of a batch: what was sent, the state, and how many commands were routed. */
  datatype Processed = Processed(out: Out, server: Server, routed: nat)

  /** Each command in turn through `route`; the first exception ends the batch. */
  function Fold(route: (Server, Command) -> Routed, st: Server, cmds: seq<Command>): (r: Processed)
    ensures r.routed <= |cmds|
    ensures r.out.raised.None? ==> r.routed == |cmds|
    ensures r.out.raised.Some? ==> r.routed >= 1
    decreases |cmds|
  {
    if |cmds| == 0 then Processed(Quiet, st, 0)
    else
      var first := route(st, cmds[0]);
      if first.out.raised.Some? then Processed(first.out, first.server, 1)
      else
        var rest := Fold(route, first.server, cmds[1..]);
        Processed(Then(first.out, rest.out), rest.server, 1 + rest.routed)
  }

  /** `process_commands`. */
  function ProcessCommands(fc: FloatCodec, stamp: string, repr: Command -> string, st: Server, cmds: seq<Command>): (r: Processed)
    ensures r.routed <= |cmds|
    ensures r.out.raised.None? ==> r.routed == |cmds|
    ensures r.out.raised.Some? ==> r.routed >= 1
  {
    Fold((s: Server, c: Command) => Route(fc, stamp, repr, s, c), st, cmds)
  }

  lemma {:induction false} FoldAppend(route: (Server, Command) -> Routed, st: Server, a: seq<Command>, b: seq<Command>)
    ensures var pa := Fold(route, st, a);
            var pb := Fold(route, pa.server, b);
            Fold(route, st, a + b) == if pa.out.raised.Some? then pa else Processed(Then(pa.out, pb.out), pb.server, |a| + pb.routed)
    decreases |a|
  {
    if |a| > 0 {
      assert (a + b)[0] == a[0] && (a + b)[1..] == a[1..] + b;
      var first := route(st, a[0]);
      if first.out.raised.None? {
        FoldAppend(route, first.server, a[1..], b);
        var rest := Fold(route, first.server, a[1..]);
        ThenAssoc(first.out, rest.out, Fold(route, rest.server, b).out);
      }
    } else {
      assert a + b == b;
    }
  }

  /** A batch split in two is the first part, then, if that raised nothing, the second from where the first left off. */
  lemma ProcessAppend(fc: FloatCodec, stamp: string, repr: Command -> string, st: Server, a: seq<Command>, b: seq<Command>)
    ensures var pa := ProcessCommands(fc, stamp, repr, st, a);
            var pb := ProcessCommands(fc, stamp, repr, pa.server, b);
            ProcessCommands(fc, stamp, repr, st, a + b)
              == if pa.out.raised.Some? then pa else Processed(Then(pa.out, pb.out), pb.server, |a| + pb.routed)
  {
    FoldAppend((s: Server, c: Command) => Route(fc, stamp, repr, s, c), st, a, b);
  }

  /** A batch of one command is that command's routing. */
  lemma ProcessOne(fc: FloatCodec, stamp: string, repr: Command -> string, st: Server, cmd: Command)
    ensures var r := Route(fc, stamp, repr, st, cmd);
            ProcessCommands(fc, stamp, repr, st, [cmd]) == Processed(r.out, r.server, 1)
  {
    FoldOne((s: Server, c: Command) => Route(fc, stamp, repr, s, c), st, cmd);
  }

  lemma FoldOne(route: (Server, Command) -> Routed, st: Server, cmd: Command)
    ensures Fold(route, st, [cmd]) == Processed(route(st, cmd).out, route(st, cmd).server, 1)
  {
    if route(st, cmd).out.raised.None? {
      assert [cmd][1..] == [];
    }
  }

  // ---------------------------------------------------------------------
  // What each branch of the router does
  // ---------------------------------------------------------------------

  /** Start with a registry whose rebuild succeeds: one task per enabled input, started, and one console line. */
  lemma RouteStart(fc: FloatCodec, stamp: string, repr: Command -> string, st: Server)
    requires InitializeTasks(AllChannels(st.hw)).error.None?
    requires StampOk(stamp) && |stamp| <= 221
    ensures var r := Route(fc, stamp, repr, st, Cmd(StartChannel, FloatVal(2.0)));
            && r.out == Out([Logged(stamp, "Measurement system started")], None)
            && r.server.running
            && TaskChannels(r.server.tasks) == Eligible(AllChannels(st.hw))
            && r.server.hw == st.hw && r.server.control == st.control
  {
    PrintConsoleFits(Quiet, fc, stamp, "Measurement system started");
  }

  /** A failed rebuild ends the step with its exception: nothing is sent or started, and the tasks built so far are kept. */
  lemma RouteStartFails(fc: FloatCodec, stamp: string, repr: Command -> string, st: Server)
    requires InitializeTasks(AllChannels(st.hw)).error.Some?
    ensures var r := Route(fc, stamp, repr, st, Cmd(StartChannel, FloatVal(2.0)));
            && r.out == Out([], InitializeTasks(AllChannels(st.hw)).error)
            && r.server == st.(tasks := InitializeTasks(AllChannels(st.hw)).tasks)
  {
  }

  /** Any other value on 900 stops: a console line, then the system state 0 on 901 at priority 0. */
  lemma RouteStop(fc: FloatCodec, stamp: string, repr: Command -> string, st: Server, v: Value)
    requires v != FloatVal(2.0)
    requires StampOk(stamp) && |stamp| <= 221
    ensures var r := Route(fc, stamp, repr, st, Cmd(StartChannel, v));
            && r.out == Out([Logged(stamp, "Measurement system stopped"), Sent(Cmd(StateLine, FloatVal(0.0)), ServerPriority)], None)
            && r.server == st.(running := false)
  {
    StopSends(fc, stamp, st);
  }

  lemma StopSends(fc: FloatCodec, stamp: string, st: Server)
    requires StampOk(stamp) && |stamp| <= 221
    ensures Stop(fc, stamp, st).out == Out([Logged(stamp, "Measurement system stopped"), Sent(Cmd(StateLine, FloatVal(0.0)), ServerPriority)], None)
  {
    DigitFits(fc, StateLine, "0", 0, ServerPriority);
    LogThen(fc, stamp, "Measurement system stopped", Build(fc, [Spec(StateLine, 'F', PyStr("0"))], ServerPriority));
  }

  /** 980 answers 1 on 981 at priority 0 and toggles the LED, whatever the lookup finds. */
  lemma RouteKeepAlive(fc: FloatCodec, stamp: string, repr: Command -> string, st: Server, v: Value)
    ensures var r := Route(fc, stamp, repr, st, Cmd(KeepAliveChannel, v));
            && r.out == Out([Sent(Cmd(KeepAliveLine, FloatVal(1.0)), ServerPriority)], None)
            && r.server == st.(hw := ToggleLed(st.hw).hw)
  {
    assert Route(fc, stamp, repr, st, Cmd(KeepAliveChannel, v)) == KeepAlive(fc, st);
    DigitFits(fc, KeepAliveLine, "1", 1, ServerPriority);
  }

  /** 800-899 are printed and then queued for the control task, whose manager puts them at priority 5. */
  lemma RouteForward(fc: FloatCodec, stamp: string, repr: Command -> string, st: Server, ch: int, v: Value)
    requires FirstControl <= ch <= LastControl
    requires StampOk(stamp) && |stamp| + |ChannelMessage(fc, ch, v)| <= 247
    ensures var r := Route(fc, stamp, repr, st, Cmd(ch, v));
            && r.out == Out([Logged(stamp, ChannelMessage(fc, ch, v))], None)
            && r.server == st.(control := Put(st.control, Cmd(ch, v), DefaultPriority))
  {
    assert ch != StartChannel && ch != SliderChannel;
    PrintConsoleFits(Quiet, fc, stamp, ChannelMessage(fc, ch, v));
  }

  /** 510 is only printed. */
  lemma RouteSlider(fc: FloatCodec, stamp: string, repr: Command -> string, st: Server, v: Value)
    requires StampOk(stamp) && |stamp| + |ChannelMessage(fc, SliderChannel, v)| <= 247
    ensures Route(fc, stamp, repr, st, Cmd(SliderChannel, v)) == Routed(Out([Logged(stamp, ChannelMessage(fc, SliderChannel, v))], None), st)
  {
    PrintConsoleFits(Quiet, fc, stamp, ChannelMessage(fc, SliderChannel, v));
  }

  /** Every other channel is printed as unknown and changes nothing. */
  lemma RouteUnknown(fc: FloatCodec, stamp: string, repr: Command -> string, st: Server, ch: int, v: Value)
    requires ch != StartChannel && ch != SliderChannel && ch != KeepAliveChannel && !(FirstControl <= ch <= LastControl)
    requires StampOk(stamp) && |stamp| + |"Unknown command: " + repr(Cmd(ch, v))| <= 247
    ensures Route(fc, stamp, repr, st, Cmd(ch, v)) == Routed(Out([Logged(stamp, "Unknown command: " + repr(Cmd(ch, v)))], None), st)
  {
    PrintConsoleFits(Quiet, fc, stamp, "Unknown command: " + repr(Cmd(ch, v)));
  }
}
