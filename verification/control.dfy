/**
 * `ControlTask`: the chart-control state machine of the server. A
 * selector command (801-805) stores itself as the current selection and
 * reports the channel charted there; a dependent command (830 enable,
 * 831 model, 833 sample rate) changes that channel, reports the new
 * setting, resets the selector display and clears the stored value.
 * Every exception inside `_execute_command` is caught: the commands
 * queued before it stay queued and the state changes made before it stay
 * made. `send_command_callback` queues at priority 5 unless given one;
 * `printConsole` queues at priority 0.
 */
module Control {
  import opened Wrappers
  import opened PyText
  import opened Commands
  import opened Models
  import opened Channels
  import opened Effects
  import opened PriorityQueue

  /** The default priority of `send_command_callback`, which every control send uses. */
  const ControlPriority: int := 5

  const FirstSelector: int := 801
  const LastSelector: int := 805
  const BaseName: int := 701
  const NamesPerDiagram: int := 20

  /** The display channels the control task writes. */
  const SelectionLine: int := 820
  const ModelLine: int := 821
  const RateLine: int := 823
  const EnableLine: int := 829

  /** The dependent commands. */
  const EnableCommand: int := 830
  const ModelCommand: int := 831
  const RateCommand: int := 833

  const NoSelection: string := "Kein Kanal ausgewählt!"

  // ---------------------------------------------------------------------
  // _calculate_name
  // ---------------------------------------------------------------------

  /**
   * `_calculate_name(diagram, index)`: the chart number of the `index`-th
   * channel of diagram `diagram`, after `int()` of both arguments. The
   * diagram is already an integer; `int(index)` may raise.
   */
  function CalculateName(diagram: int, index: PyVal): (r: Result<int>)
    ensures r.Err? <==> IntOf(index).Err?
    ensures r.Err? ==> r.error == IntOf(index).error
    ensures index.PyNone? ==> r == Err(TypeError)
  {
    match IntOf(index)
    case Err(e) => Err(e)
    case Ok(i) => Ok(BaseName + (diagram - FirstSelector) * NamesPerDiagram + (i - 1))
  }

  /** The diagram a chart number in 701..800 belongs to. */
  function DiagramOf(name: int): int {
    FirstSelector + (name - BaseName) / NamesPerDiagram
  }

  /** The position of a chart number in 701..800 within its diagram, from 1. */
  function IndexOf(name: int): int {
    (name - BaseName) % NamesPerDiagram + 1
  }

  /** Diagrams 801..805 with indices 1..20 land in 701..800, and the pair can be read back. */
  lemma NameBijection(d: int, i: int)
    requires FirstSelector <= d <= LastSelector && 1 <= i <= NamesPerDiagram
    ensures CalculateName(d, PyInt(i)).Ok?
    ensures var n := CalculateName(d, PyInt(i)).value;
            701 <= n <= 800 && DiagramOf(n) == d && IndexOf(n) == i
  {
    var n := CalculateName(d, PyInt(i)).value;
    assert n - BaseName == (d - FirstSelector) * NamesPerDiagram + (i - 1);
  }

  /** Every chart number in 701..800 is the name of exactly one diagram and index. */
  lemma NameCovers(n: int)
    requires 701 <= n <= 800
    ensures FirstSelector <= DiagramOf(n) <= LastSelector && 1 <= IndexOf(n) <= NamesPerDiagram
    ensures CalculateName(DiagramOf(n), PyInt(IndexOf(n))) == Ok(n)
  {
  }

  /** Two selections with the same name are the same selection. */
  lemma NameInjective(d1: int, i1: int, d2: int, i2: int)
    requires FirstSelector <= d1 <= LastSelector && 1 <= i1 <= NamesPerDiagram
    requires FirstSelector <= d2 <= LastSelector && 1 <= i2 <= NamesPerDiagram
    requires CalculateName(d1, PyInt(i1)) == CalculateName(d2, PyInt(i2))
    ensures d1 == d2 && i1 == i2
  {
    NameBijection(d1, i1);
    NameBijection(d2, i2);
  }

  // ---------------------------------------------------------------------
  // Finding and changing the charted channel
  // ---------------------------------------------------------------------

  /** A channel whose config has a chart number. */
  predicate Charted(c: Channel) {
    c.config.Some? && c.config.value.chartNumber.Some?
  }

  /** A channel whose config has the chart number `name`. */
  predicate OnChart(c: Channel, name: int) {
    c.config.Some? && c.config.value.chartNumber == Some(name)
  }

  /** The search loop: the channels on chart `name`, in `get_channels` order. */
  function ChartMatches(cs: seq<Channel>, name: int): (r: seq<Channel>)
    ensures |r| <= |cs|
    ensures forall c :: c in r <==> c in cs && OnChart(c, name)
  {
    if |cs| == 0 then []
    else (if OnChart(cs[0], name) then [cs[0]] else []) + ChartMatches(cs[1..], name)
  }

  /** The assignments a dependent command makes to the selected channel. */
  datatype Update = SetEnabled(on: bool) | SetModel(model: Model) | SetRate(rate: Num)

  function Retuned(c: Channel, u: Update): (r: Channel)
    ensures r.name == c.name && r.kind == c.kind && r.typ == c.typ && r.unit == c.unit && r.level == c.level
    ensures r.config.Some? <==> c.config.Some?
    ensures c.config.Some? ==> r.config.value.chartNumber == c.config.value.chartNumber
    ensures u.SetModel? ==> r == c.(model := u.model)
    ensures u.SetEnabled? && c.config.Some? ==> r.config.value == c.config.value.(enabled := Some(u.on)) && r.model == c.model
    ensures u.SetRate? && c.config.Some? ==> r.config.value == c.config.value.(sampleRate := Some(u.rate)) && r.model == c.model
  {
    match u
    case SetModel(m) => c.(model := m)
    case SetEnabled(on) =>
      if c.config.Some? then c.(config := Some(c.config.value.(enabled := Some(on)))) else c
    case SetRate(x) =>
      if c.config.Some? then c.(config := Some(c.config.value.(sampleRate := Some(x)))) else c
  }

  /** Apply `u` to the channels on chart `name`; every other channel is left as it is. */
  function RetuneAll(cs: seq<Channel>, name: int, u: Update): (r: seq<Channel>)
    ensures |r| == |cs|
    ensures forall i :: 0 <= i < |cs| ==> r[i] == if OnChart(cs[i], name) then Retuned(cs[i], u) else cs[i]
  {
    seq(|cs|, i requires 0 <= i < |cs| => if OnChart(cs[i], name) then Retuned(cs[i], u) else cs[i])
  }

  function RetuneManager(m: Manager, name: int, u: Update): Manager {
    m.(inputs := RetuneAll(m.inputs, name, u), outputs := RetuneAll(m.outputs, name, u), multis := RetuneAll(m.multis, name, u))
  }

  function RetuneHardware(hs: seq<Hardware>, name: int, u: Update): (r: seq<Hardware>)
    ensures |r| == |hs|
    ensures forall k :: 0 <= k < |hs| ==> r[k] == hs[k].(channels := RetuneManager(hs[k].channels, name, u))
  {
    seq(|hs|, k requires 0 <= k < |hs| => hs[k].(channels := RetuneManager(hs[k].channels, name, u)))
  }

  /** The registry after the dependent command's assignment, made on the channel object itself. */
  function Retune(mh: MultiHardware, name: int, u: Update): MultiHardware {
    mh.(hardware := RetuneHardware(mh.hardware, name, u))
  }

  lemma RetuneAppend(a: seq<Channel>, b: seq<Channel>, name: int, u: Update)
    ensures RetuneAll(a + b, name, u) == RetuneAll(a, name, u) + RetuneAll(b, name, u)
  {
  }

  lemma RetuneManagerChannels(m: Manager, name: int, u: Update)
    ensures GetChannels(RetuneManager(m, name, u)) == RetuneAll(GetChannels(m), name, u)
  {
    RetuneAppend(m.inputs, m.outputs, name, u);
    RetuneAppend(m.inputs + m.outputs, m.multis, name, u);
  }

  lemma {:induction false} RetuneHardwareChannels(hs: seq<Hardware>, name: int, u: Update)
    ensures ChannelsOf(RetuneHardware(hs, name, u)) == RetuneAll(ChannelsOf(hs), name, u)
    decreases |hs|
  {
    if |hs| > 0 {
      var r := RetuneHardware(hs, name, u);
      var last := |hs| - 1;
      assert r[..last] == RetuneHardware(hs[..last], name, u);
      RetuneHardwareChannels(hs[..last], name, u);
      RetuneManagerChannels(hs[last].channels, name, u);
      RetuneAppend(ChannelsOf(hs[..last]), GetChannels(hs[last].channels), name, u);
    }
  }

  /**
   * The assignment reaches the channel inside the registry: `get_channels`
   * afterwards shows the same channels in the same order, those on the
   * chart changed and all others untouched.
   */
  lemma RetuneChannels(mh: MultiHardware, name: int, u: Update)
    ensures AllChannels(Retune(mh, name, u)) == RetuneAll(AllChannels(mh), name, u)
  {
    RetuneHardwareChannels(mh.hardware, name, u);
  }

  // ---------------------------------------------------------------------
  // The control task's state and one executed command
  // ---------------------------------------------------------------------

  /** `_command_storage`: the last selector command's channel and its value (`None` once consumed). */
  datatype Stored = Stored(channel: int, value: PyVal)

  /** The task's register and the registry it reads and changes. */
  datatype ControlState = ControlState(stored: Option<Stored>, hw: MultiHardware)

  /** The configuration commands 890-892, whose JSON files and reload are not modelled. */
  datatype ConfigAction = NoConfig | SaveConfig | LoadConfig(defaults: bool)

  /** The sends of one executed command, the caught exception if any, and the state after it. */
  datatype Executed = Executed(out: Out, state: ControlState, config: ConfigAction)

  /** `int(enabled) + 1`: 2 when enabled, 1 when not. */
  function EnableCode(on: bool): int {
    if on then 2 else 1
  }

  /** `str()` of a Python bool. */
  function BoolText(b: bool): string {
    if b then "True" else "False"
  }

  function SelectorMessage(fc: FloatCodec, v: Value): string {
    "Received control command with channel number = " + ValueText(fc, v) + ", waiting for next control command + value"
  }

  /** The status line on 820: the selected chart number, or none. */
  function SelectionText(name: Option<int>): string {
    match name
    case None => NoSelection
    case Some(n) => "Kanal " + IntText(n) + " ausgewählt!"
  }

  /** The selectors other than `ch`, in order. */
  function OtherSelectors(ch: int): (r: seq<int>)
    ensures forall c :: c in r <==> FirstSelector <= c <= LastSelector && c != ch
  {
    Without([801, 802, 803, 804, 805], ch)
  }

  function Without(cs: seq<int>, ch: int): (r: seq<int>)
    ensures forall c :: c in r <==> c in cs && c != ch
  {
    if |cs| == 0 then [] else (if cs[0] != ch then [cs[0]] else []) + Without(cs[1..], ch)
  }

  /** `Command(c + 10, "F", "0")` for each selector `c`: the selector displays 811-815 set to nothing. */
  function ZeroSpecs(cs: seq<int>): (specs: seq<Spec>)
    ensures |specs| == |cs|
    ensures forall i :: 0 <= i < |cs| ==> specs[i] == Spec(cs[i] + 10, 'F', PyStr("0"))
  {
    seq(|cs|, i requires 0 <= i < |cs| => Spec(cs[i] + 10, 'F', PyStr("0")))
  }

  /** The commands `ZeroSpecs` makes. */
  function Zeros(cs: seq<int>): (zs: seq<Command>)
    ensures |zs| == |cs|
    ensures forall i :: 0 <= i < |cs| ==> zs[i] == Cmd(cs[i] + 10, FloatVal(0.0))
  {
    seq(|cs|, i requires 0 <= i < |cs| => Cmd(cs[i] + 10, FloatVal(0.0)))
  }

  /** What is shown when no channel is found. */
  const NotFoundSpecs: seq<Spec> := [Spec(EnableLine, 'F', PyInt(0)), Spec(RateLine, 'S', PyStr("SR: not found!"))]

  const NotFoundCommands: seq<Command> := [Cmd(EnableLine, FloatVal(0.0)), Cmd(RateLine, TextVal("SR: not found!"))]

  /** The enable code and the model of the channel found. */
  function ShownSpecs(fc: FloatCodec, on: bool, model: Model): seq<Spec> {
    [Spec(EnableLine, 'F', PyInt(EnableCode(on))), Spec(ModelLine, 'S', PyStr(ToText(fc, model)))]
  }

  /**
   * The search and report that follow the status line. With no name (a
   * selector value of 0) the comparison with the unbound `channel_name`
   * raises as soon as a channel with a chart number is met.
   */
  function Report(fc: FloatCodec, cs: seq<Channel>, name: Option<int>): (o: Out)
    ensures name.None? && (exists c :: c in cs && Charted(c)) ==> o == Out([], Some(UnboundLocalError))
    ensures o.raised.Some? ==> o.raised.value in {UnboundLocalError, AttributeError, ValueError, Exception}
  {
    if name.None? && exists c :: c in cs && Charted(c) then Out([], Some(UnboundLocalError))
    else
      var matches := if name.None? then [] else ChartMatches(cs, name.value);
      if |matches| == 0 then
        Build(fc, NotFoundSpecs, ControlPriority)
      else if |matches| == 1 then
        assert matches[0] in matches;
        Shown(fc, matches[0])
      else Out([], Some(Exception))
  }

  /** The one channel found: its enable code and model, then its sample rate. */
  function Shown(fc: FloatCodec, c: Channel): (o: Out)
    requires c.config.Some?
    ensures o.raised.Some? ==> o.raised.value in {AttributeError, ValueError}
  {
    var cfg := c.config.value;
    if cfg.enabled.None? then Out([], Some(AttributeError))
    else
      var o := Build(fc, ShownSpecs(fc, cfg.enabled.value, c.model), ControlPriority);
      if cfg.sampleRate.None? then Raise(o, AttributeError)
      else Then(o, Build(fc, [Spec(RateLine, 'S', PyStr("SR: " + NumText(fc, cfg.sampleRate.value)))], ControlPriority))
  }

  /**
   * The chart a selector value names: none for the value 0, which leaves
   * `channel_name` unbound, otherwise `_calculate_name`.
   */
  function SelectedName(ch: int, v: Value): (r: Result<Option<int>>)
    ensures v == FloatVal(0.0) ==> r == Ok(None)
    ensures v != FloatVal(0.0) ==> match CalculateName(ch, Payload(v))
                                   case Ok(n) => r == Ok(Some(n))
                                   case Err(e) => r == Err(e)
  {
    if v == FloatVal(0.0) then Ok(None)
    else
      match CalculateName(ch, Payload(v))
      case Ok(n) => Ok(Some(n))
      case Err(e) => Err(e)
  }

  /** The console line, then the other selector displays set to 0. */
  function SelectHeadOut(fc: FloatCodec, stamp: string, ch: int, v: Value): Out {
    Then(PrintConsole(Quiet, fc, stamp, SelectorMessage(fc, v)), Build(fc, ZeroSpecs(OtherSelectors(ch)), ControlPriority))
  }

  /** Then the status line. */
  function SelectPrefix(fc: FloatCodec, stamp: string, ch: int, v: Value, n: Option<int>): Out {
    Then(SelectHeadOut(fc, stamp, ch, v), Build(fc, [Spec(SelectionLine, 'S', PyStr(SelectionText(n)))], ControlPriority))
  }

  /**
   * A selector command 801-805. The command is stored first, so it stays
   * stored whatever is raised later; the registry is only read.
   */
  function Select(fc: FloatCodec, stamp: string, st: ControlState, ch: int, v: Value): (r: Executed)
    requires FirstSelector <= ch <= LastSelector
    ensures r.state == st.(stored := Some(Stored(ch, Payload(v))))
    ensures r.config == NoConfig
  {
    var out :=
      match SelectedName(ch, v)
      case Err(e) => Raise(SelectHeadOut(fc, stamp, ch, v), e)
      case Ok(n) => Then(SelectPrefix(fc, stamp, ch, v, n), Report(fc, AllChannels(st.hw), n));
    Executed(out, st.(stored := Some(Stored(ch, Payload(v)))), NoConfig)
  }

  /** The label a dependent command prints. */
  function Label(ch: int): string {
    if ch == EnableCommand then "channel enable"
    else if ch == ModelCommand then "'model selction'"
    else "'sample rate selection'"
  }

  function DependentMessage(fc: FloatCodec, ch: int, v: Value): string {
    "Received control command for " + Label(ch) + ": value = " + ValueText(fc, v)
  }

  /** The console line of a dependent command that arrives before any selector. */
  function UnselectedMessage(ch: int): string {
    if ch == EnableCommand then "Channel enable command received without setting chart channel first"
    else Label(ch) + " command received without setting chart channel first"
  }

  /** The selector displays cleared and the status line reset. */
  const ResetSpecs: seq<Spec> :=
    [Spec(811, 'F', PyInt(0)), Spec(812, 'F', PyInt(0)), Spec(813, 'F', PyInt(0)),
     Spec(814, 'F', PyInt(0)), Spec(815, 'F', PyInt(0)), Spec(SelectionLine, 'S', PyStr(NoSelection))]

  const ResetCommands: seq<Command> :=
    [Cmd(811, FloatVal(0.0)), Cmd(812, FloatVal(0.0)), Cmd(813, FloatVal(0.0)),
     Cmd(814, FloatVal(0.0)), Cmd(815, FloatVal(0.0)), Cmd(SelectionLine, TextVal(NoSelection))]

  /** What the change on the one selected channel sent, and the assignment it made, if it got that far. */
  datatype Changed = Changed(out: Out, update: Option<Update>)

  /** The line printed before an assignment: the chart number, the old setting and the new value. */
  function UpdateMessage(fc: FloatCodec, ch: int, name: int, was: string, v: Value): string {
    "CH " + IntText(name) + " " + (if ch == EnableCommand then "enable" else Label(ch)) + " update: replacing " + was + " with " + ValueText(fc, v)
  }

  /**
   * 830 on the one channel `c` on chart `name`, after the sends so far `o`:
   * print the old and new setting, set `enabled` to whether the value is
   * 2, report 1 or 2 on 829.
   */
  function ChangeEnable(fc: FloatCodec, stamp: string, o: Out, v: Value, name: int, c: Channel): (r: Changed)
    requires c.config.Some?
    ensures o.raised.Some? ==> r == Changed(o, None)
    ensures r.update.Some? ==> FloatOf(fc, Payload(v)).Ok? && r.update.value == SetEnabled(FloatOf(fc, Payload(v)).value == 2.0)
    ensures r.update.Some? ==> c.config.value.enabled.Some? && r.out.raised.None?
    ensures c.config.value.enabled.None? ==> r.out == Raise(o, AttributeError)
  {
    if o.raised.Some? then Changed(o, None)
    else
      match c.config.value.enabled
      case None => Changed(Raise(o, AttributeError), None)
      case Some(was) =>
        var o2 := PrintConsole(o, fc, stamp, UpdateMessage(fc, EnableCommand, name, BoolText(was), v));
        if o2.raised.Some? then Changed(o2, None)
        else
          match FloatOf(fc, Payload(v))
          case Err(e) => Changed(Raise(o2, e), None)
          case Ok(x) =>
            var on := x == 2.0;
            EnableFits(fc, on);
            Changed(Then(o2, Build(fc, [Spec(EnableLine, 'F', PyInt(EnableCode(on)))], ControlPriority)), Some(SetEnabled(on)))
  }

  /**
   * 831: a float value has no `split` and fails with `AttributeError`; a
   * text goes to `set_model_from_str` (`parse`), whose failure leaves the
   * model unchanged; the new model is reported on 821.
   */
  function ChangeModel(fc: FloatCodec, parse: string -> Result<Model>, stamp: string, o: Out, v: Value, name: int, c: Channel): (r: Changed)
    ensures o.raised.Some? ==> r == Changed(o, None)
    ensures r.update.Some? ==> v.TextVal? && parse(v.s).Ok? && r.update.value == SetModel(parse(v.s).value)
    ensures r.update.Some? ==> r.out.raised.None? || r.out.raised == Some(ValueError)
  {
    if o.raised.Some? then Changed(o, None)
    else
      var o2 := PrintConsole(o, fc, stamp, UpdateMessage(fc, ModelCommand, name, ToText(fc, c.model), v));
      if o2.raised.Some? then Changed(o2, None)
      else
        match v
        case FloatVal(_) => Changed(Raise(o2, AttributeError), None)
        case TextVal(s) =>
          match parse(s)
          case Err(e) => Changed(Raise(o2, e), None)
          case Ok(m) =>
            Changed(Then(o2, Build(fc, [Spec(ModelLine, 'S', PyStr("Model: " + ToText(fc, m)))], ControlPriority)), Some(SetModel(m)))
  }

  /** 833: print the old and new rate, set the sample rate to `float(value)`, report it on 823. */
  function ChangeRate(fc: FloatCodec, stamp: string, o: Out, v: Value, name: int, c: Channel): (r: Changed)
    requires c.config.Some?
    ensures o.raised.Some? ==> r == Changed(o, None)
    ensures r.update.Some? ==> FloatOf(fc, Payload(v)).Ok? && r.update.value == SetRate(FloatNum(FloatOf(fc, Payload(v)).value))
    ensures r.update.Some? ==> r.out.raised.None? || r.out.raised == Some(ValueError)
    ensures c.config.value.sampleRate.None? ==> r.out == Raise(o, AttributeError)
  {
    if o.raised.Some? then Changed(o, None)
    else
      match c.config.value.sampleRate
      case None => Changed(Raise(o, AttributeError), None)
      case Some(was) =>
        var o2 := PrintConsole(o, fc, stamp, UpdateMessage(fc, RateCommand, name, NumText(fc, was), v));
        if o2.raised.Some? then Changed(o2, None)
        else
          match FloatOf(fc, Payload(v))
          case Err(e) => Changed(Raise(o2, e), None)
          case Ok(x) =>
            Changed(Then(o2, Build(fc, [Spec(RateLine, 'S', PyStr("SR: " + ShowFloat(fc, x)))], ControlPriority)), Some(SetRate(FloatNum(x))))
  }

  /** The per-command part of a dependent command. */
  function Change(fc: FloatCodec, parse: string -> Result<Model>, stamp: string, o: Out, ch: int, v: Value, name: int, c: Channel): Changed
    requires c.config.Some?
  {
    if ch == EnableCommand then ChangeEnable(fc, stamp, o, v, name, c)
    else if ch == ModelCommand then ChangeModel(fc, parse, stamp, o, v, name, c)
    else ChangeRate(fc, stamp, o, v, name, c)
  }

  /**
   * A dependent command 830, 831 or 833. Without a stored selection it
   * only prints. Otherwise it names the channel from the stored selection,
   * changes the one channel on that chart, resets the selector display
   * and, last, sets the stored command's value to `None`: an exception
   * anywhere leaves the register as it was.
   */
  function Depend(fc: FloatCodec, parse: string -> Result<Model>, stamp: string, st: ControlState, ch: int, v: Value): (r: Executed)
    requires ch in {EnableCommand, ModelCommand, RateCommand}
    ensures r.config == NoConfig
    ensures st.stored.None? ==> r.state == st
    ensures r.out.raised.Some? ==> r.state.stored == st.stored
    ensures st.stored.Some? && r.out.raised.None? ==> r.state.stored == Some(st.stored.value.(value := PyNone))
    ensures r.state.hw != st.hw ==> st.stored.Some? && CalculateName(st.stored.value.channel, st.stored.value.value).Ok?
    ensures r.state.hw != st.hw ==>
              var name := CalculateName(st.stored.value.channel, st.stored.value.value).value;
              |ChartMatches(AllChannels(st.hw), name)| == 1 && exists u :: r.state.hw == Retune(st.hw, name, u)
  {
    match st.stored
    case None => Executed(PrintConsole(Quiet, fc, stamp, UnselectedMessage(ch)), st, NoConfig)
    case Some(sel) =>
      var o1 := PrintConsole(Quiet, fc, stamp, DependentMessage(fc, ch, v));
      if o1.raised.Some? then Executed(o1, st, NoConfig)
      else DependNamed(fc, parse, stamp, st, sel, o1, ch, v)
  }

  /** The part of `Depend` after its console line: name the chart, then change its one channel. */
  function DependNamed(fc: FloatCodec, parse: string -> Result<Model>, stamp: string, st: ControlState, sel: Stored,
                       o1: Out, ch: int, v: Value): (r: Executed)
    requires o1.raised.None?
    ensures r.config == NoConfig
    ensures r.out.raised.Some? ==> r.state.stored == st.stored
    ensures r.out.raised.None? ==> r.state.stored == Some(sel.(value := PyNone))
    ensures r.state.hw != st.hw ==> CalculateName(sel.channel, sel.value).Ok?
    ensures r.state.hw != st.hw ==>
              var name := CalculateName(sel.channel, sel.value).value;
              |ChartMatches(AllChannels(st.hw), name)| == 1 && exists u :: r.state.hw == Retune(st.hw, name, u)
  {
    match CalculateName(sel.channel, sel.value)
    case Err(e) => Executed(Raise(o1, e), st, NoConfig)
    case Ok(name) =>
      if |ChartMatches(AllChannels(st.hw), name)| != 1 then Executed(Raise(o1, Exception), st, NoConfig)
      else DependFound(fc, parse, stamp, st, sel, o1, ch, v, name)
  }

  /** The tail of `Depend` once exactly one channel on the chart carries the selected name. */
  function DependFound(fc: FloatCodec, parse: string -> Result<Model>, stamp: string, st: ControlState, sel: Stored,
                       o1: Out, ch: int, v: Value, name: int): (r: Executed)
    requires |ChartMatches(AllChannels(st.hw), name)| == 1
    ensures r.config == NoConfig
    ensures r.out.raised.Some? ==> r.state.stored == st.stored
    ensures r.out.raised.None? ==> r.state.stored == Some(sel.(value := PyNone))
    ensures r.state.hw != st.hw ==> exists u :: r.state.hw == Retune(st.hw, name, u)
  {
    var matches := ChartMatches(AllChannels(st.hw), name);
    assert matches[0] in matches;
    var changed := Change(fc, parse, stamp, o1, ch, v, name, matches[0]);
    var hw := if changed.update.Some? then Retune(st.hw, name, changed.update.value) else st.hw;
    var o3 := Then(changed.out, Build(fc, ResetSpecs, ControlPriority));
    var stored := if o3.raised.None? then Some(sel.(value := PyNone)) else st.stored;
    Executed(o3, ControlState(stored, hw), NoConfig)
  }

  // ---------------------------------------------------------------------
  // The configuration commands 890-892
  // ---------------------------------------------------------------------

  /**
   * `os.path.join(dir, "config", file)` on POSIX: a separator is put
   * after `dir` unless it is empty or already ends in one. `dir` is the
   * directory of the server script.
   */
  function ConfigPath(dir: string, file: string): string {
    if dir == [] || dir[|dir| - 1] == '/' then dir + "config/" + file else dir + "/config/" + file
  }

  /**
   * The path starts with the directory and ends with `config/` and the file
   * name; a non-empty directory is separated from `config` by a `/`.
   */
  lemma ConfigPathShape(dir: string, file: string)
    ensures var p := ConfigPath(dir, file);
            |p| >= |dir| + 7 + |file| && p[..|dir|] == dir && p[|p| - |file| - 7..] == "config/" + file
    ensures var p := ConfigPath(dir, file);
            dir != [] ==> p[|p| - |file| - 8] == '/'
  {
  }

  /** The three files of a configuration set: `_user` or `_default`. */
  function ConfigFiles(dir: string, defaults: bool): seq<string> {
    var postfix := if defaults then "_default" else "_user";
    [ConfigPath(dir, "hardware" + postfix + ".json"),
     ConfigPath(dir, "channels" + postfix + ".json"),
     ConfigPath(dir, "modules" + postfix + ".json")]
  }

  /** `'{hardware_file}', '{channels_file}' and '{modules_file}'`. */
  function FileList(files: seq<string>): string
    requires |files| == 3
  {
    "'" + files[0] + "', '" + files[1] + "' and '" + files[2] + "'"
  }

  function SaveMessage(dir: string): string {
    "Saving config to " + FileList(ConfigFiles(dir, false))
  }

  function LoadMessage(dir: string, defaults: bool): string {
    "Loading config from " + FileList(ConfigFiles(dir, defaults))
  }

  /**
   * `_execute_command`. A blank command fails on its first comparison; the
   * configuration commands 890-892 announce their files on the console and
   * record the save or load, which is not performed; any other channel is
   * reported as unknown.
   */
  function Execute(fc: FloatCodec, parse: string -> Result<Model>, dir: string, stamp: string, st: ControlState, cmd: Command): (r: Executed)
    ensures cmd.Blank? ==> r == Executed(Out([], Some(TypeError)), st, NoConfig)
    ensures cmd.Cmd? && FirstSelector <= cmd.channel <= LastSelector ==> r.state.stored == Some(Stored(cmd.channel, Payload(cmd.value)))
    ensures r.state.hw != st.hw ==> cmd.Cmd? && cmd.channel in {EnableCommand, ModelCommand, RateCommand}
    ensures r.config == SaveConfig <==> cmd.Cmd? && cmd.channel == 890
    ensures r.config.LoadConfig? <==> cmd.Cmd? && 891 <= cmd.channel <= 892
    ensures r.config.LoadConfig? ==> r.config.defaults == (cmd.channel == 892)
    ensures r.config != NoConfig ==> r.state == st
  {
    match cmd
    case Blank => Executed(Out([], Some(TypeError)), st, NoConfig)
    case Cmd(ch, v) =>
      if FirstSelector <= ch <= LastSelector then Select(fc, stamp, st, ch, v)
      else if ch in {EnableCommand, ModelCommand, RateCommand} then Depend(fc, parse, stamp, st, ch, v)
      else if ch == 890 then Executed(PrintConsole(Quiet, fc, stamp, SaveMessage(dir)), st, SaveConfig)
      else if 891 <= ch <= 892 then Executed(PrintConsole(Quiet, fc, stamp, LoadMessage(dir, ch == 892)), st, LoadConfig(ch == 892))
      else Executed(PrintConsole(Quiet, fc, stamp, "Unknown control command: " + ToString(fc, cmd)), st, NoConfig)
  }

  /**
   * A configuration command sends exactly one console line, naming the
   * user files for 890 and 891 and the default files for 892, and leaves
   * the register and the registry alone.
   */
  lemma ConfigAnnounced(fc: FloatCodec, parse: string -> Result<Model>, dir: string, stamp: string, st: ControlState, ch: int, v: Value)
    requires 890 <= ch <= 892
    requires var msg := if ch == 890 then SaveMessage(dir) else LoadMessage(dir, ch == 892);
             StampOk(stamp) && |stamp| + |msg| <= 247
    ensures var msg := if ch == 890 then SaveMessage(dir) else LoadMessage(dir, ch == 892);
            Execute(fc, parse, dir, stamp, st, Cmd(ch, v)).out == Out([Logged(stamp, msg)], None)
    ensures Execute(fc, parse, dir, stamp, st, Cmd(ch, v)).state == st
  {
    var msg := if ch == 890 then SaveMessage(dir) else LoadMessage(dir, ch == 892);
    PrintConsoleFits(Quiet, fc, stamp, msg);
  }


  // ---------------------------------------------------------------------
  // What the control commands send
  // ---------------------------------------------------------------------

  lemma NotFoundFits(fc: FloatCodec)
    ensures Build(fc, NotFoundSpecs, ControlPriority) == Out(Sends(NotFoundCommands, ControlPriority), None)
  {
    BuildPair(fc, NotFoundSpecs[0], NotFoundSpecs[1], NotFoundCommands[0], NotFoundCommands[1], ControlPriority);
  }

  lemma ShownFits(fc: FloatCodec, on: bool, model: Model)
    requires Printable(ToText(fc, model))
    ensures Build(fc, ShownSpecs(fc, on, model), ControlPriority)
            == Out(Sends([Cmd(EnableLine, FloatVal(EnableCode(on) as real)), Cmd(ModelLine, TextVal(ToText(fc, model)))], ControlPriority), None)
  {
    BuildPair(fc, ShownSpecs(fc, on, model)[0], ShownSpecs(fc, on, model)[1],
              Cmd(EnableLine, FloatVal(EnableCode(on) as real)), Cmd(ModelLine, TextVal(ToText(fc, model))), ControlPriority);
  }

  lemma EnableFits(fc: FloatCodec, on: bool)
    ensures Build(fc, [Spec(EnableLine, 'F', PyInt(EnableCode(on)))], ControlPriority)
            == Out([Sent(Cmd(EnableLine, FloatVal(EnableCode(on) as real)), ControlPriority)], None)
  {
    BuildFits(fc, [Spec(EnableLine, 'F', PyInt(EnableCode(on)))], ControlPriority);
  }

  lemma ZerosFit(fc: FloatCodec, ch: int)
    ensures Build(fc, ZeroSpecs(OtherSelectors(ch)), ControlPriority) == Out(Sends(Zeros(OtherSelectors(ch)), ControlPriority), None)
  {
    var zs := ZeroSpecs(OtherSelectors(ch));
    DigitTexts();
    forall i | 0 <= i < |zs|
      ensures Fits(fc, zs[i])
    {
      assert OtherSelectors(ch)[i] in OtherSelectors(ch);
    }
    BuildFits(fc, zs, ControlPriority);
    assert Intents(zs) == Zeros(OtherSelectors(ch));
  }

  lemma ResetFits(fc: FloatCodec)
    ensures Build(fc, ResetSpecs, ControlPriority) == Out(Sends(ResetCommands, ControlPriority), None)
  {
    ResetAllFit(fc);
    BuildFits(fc, ResetSpecs, ControlPriority);
    ResetIntents();
  }

  lemma ResetAllFit(fc: FloatCodec)
    ensures forall i :: 0 <= i < |ResetSpecs| ==> Fits(fc, ResetSpecs[i])
  {
    NoSelectionPrintable();
  }

  lemma ResetIntents()
    ensures Intents(ResetSpecs) == ResetCommands
  {
  }

  lemma NoSelectionPrintable()
    ensures Printable(NoSelection)
  {
  }

  /** On exactly one channel on the chart, its enable code, model and sample rate are reported, in that order. */
  lemma ReportFound(fc: FloatCodec, cs: seq<Channel>, n: int)
    requires |ChartMatches(cs, n)| == 1
    requires var c := ChartMatches(cs, n)[0];
             c.config.Some? && c.config.value.enabled.Some? && c.config.value.sampleRate.Some?
             && Printable(ToText(fc, c.model)) && Printable("SR: " + NumText(fc, c.config.value.sampleRate.value))
    ensures var c := ChartMatches(cs, n)[0];
            Report(fc, cs, Some(n))
              == Out(Sends([Cmd(EnableLine, FloatVal(EnableCode(c.config.value.enabled.value) as real)),
                            Cmd(ModelLine, TextVal(ToText(fc, c.model))),
                            Cmd(RateLine, TextVal("SR: " + NumText(fc, c.config.value.sampleRate.value)))], ControlPriority), None)
  {
    ShownAll(fc, ChartMatches(cs, n)[0]);
  }

  lemma ShownAll(fc: FloatCodec, c: Channel)
    requires c.config.Some? && c.config.value.enabled.Some? && c.config.value.sampleRate.Some?
    requires Printable(ToText(fc, c.model)) && Printable("SR: " + NumText(fc, c.config.value.sampleRate.value))
    ensures Shown(fc, c)
            == Out(Sends([Cmd(EnableLine, FloatVal(EnableCode(c.config.value.enabled.value) as real)),
                          Cmd(ModelLine, TextVal(ToText(fc, c.model))),
                          Cmd(RateLine, TextVal("SR: " + NumText(fc, c.config.value.sampleRate.value)))], ControlPriority), None)
  {
    var cfg := c.config.value;
    var rate := "SR: " + NumText(fc, cfg.sampleRate.value);
    var shown := [Cmd(EnableLine, FloatVal(EnableCode(cfg.enabled.value) as real)), Cmd(ModelLine, TextVal(ToText(fc, c.model)))];
    ShownFits(fc, cfg.enabled.value, c.model);
    TextFits(fc, RateLine, rate, ControlPriority);
    ThenSend(Build(fc, ShownSpecs(fc, cfg.enabled.value, c.model), ControlPriority),
             Build(fc, [Spec(RateLine, 'S', PyStr(rate))], ControlPriority), shown, Cmd(RateLine, TextVal(rate)), ControlPriority);
    assert shown + [Cmd(RateLine, TextVal(rate))] == [shown[0], shown[1], Cmd(RateLine, TextVal(rate))];
  }

  /** With no channel to report, the enable display is cleared and the rate reads "not found". */
  lemma ReportNotFound(fc: FloatCodec, cs: seq<Channel>, n: Option<int>)
    requires n.None? ==> forall c :: c in cs ==> !Charted(c)
    requires n.Some? ==> |ChartMatches(cs, n.value)| == 0
    ensures Report(fc, cs, n) == Out(Sends(NotFoundCommands, ControlPriority), None)
  {
    NotFoundFits(fc);
  }

  /** Two or more channels on the chart raise before anything is reported. */
  lemma ReportAmbiguous(fc: FloatCodec, cs: seq<Channel>, n: int)
    requires |ChartMatches(cs, n)| >= 2
    ensures Report(fc, cs, Some(n)) == Out([], Some(Exception))
  {
  }

  /** One channel on the chart whose config has no `enabled` raises before anything is reported. */
  lemma ReportNoEnable(fc: FloatCodec, cs: seq<Channel>, n: int)
    requires |ChartMatches(cs, n)| == 1
    requires ChartMatches(cs, n)[0].config.Some? && ChartMatches(cs, n)[0].config.value.enabled.None?
    ensures Report(fc, cs, Some(n)) == Out([], Some(AttributeError))
  {
  }

  /** The console line and the other selectors' zeros, which every selector command sends first. */
  lemma SelectHead(fc: FloatCodec, stamp: string, ch: int, v: Value)
    requires StampOk(stamp) && |stamp| + |SelectorMessage(fc, v)| <= 247
    ensures SelectHeadOut(fc, stamp, ch, v) == Out([Logged(stamp, SelectorMessage(fc, v))] + Sends(Zeros(OtherSelectors(ch)), ControlPriority), None)
  {
    LogThen(fc, stamp, SelectorMessage(fc, v), Build(fc, ZeroSpecs(OtherSelectors(ch)), ControlPriority));
    ZerosFit(fc, ch);
  }

  /**
   * A selector whose index converts: the console line, the four other
   * selector displays set to 0, the status line naming the chart, then
   * the report on whatever channels are on that chart.
   */
  lemma SelectSends(fc: FloatCodec, stamp: string, st: ControlState, ch: int, v: Value, n: Option<int>)
    requires FirstSelector <= ch <= LastSelector
    requires StampOk(stamp) && |stamp| + |SelectorMessage(fc, v)| <= 247
    requires n.None? <==> v == FloatVal(0.0)
    requires n.Some? ==> CalculateName(ch, Payload(v)) == Ok(n.value)
    requires Printable(SelectionText(n))
    ensures Select(fc, stamp, st, ch, v).out
            == Then(Out([Logged(stamp, SelectorMessage(fc, v))]
                        + Sends(Zeros(OtherSelectors(ch)) + [Cmd(SelectionLine, TextVal(SelectionText(n)))], ControlPriority), None),
                    Report(fc, AllChannels(st.hw), n))
  {
    SelectPrefixFits(fc, stamp, ch, v, n);
  }

  lemma SelectPrefixFits(fc: FloatCodec, stamp: string, ch: int, v: Value, n: Option<int>)
    requires StampOk(stamp) && |stamp| + |SelectorMessage(fc, v)| <= 247
    requires Printable(SelectionText(n))
    ensures SelectPrefix(fc, stamp, ch, v, n)
            == Out([Logged(stamp, SelectorMessage(fc, v))]
                   + Sends(Zeros(OtherSelectors(ch)) + [Cmd(SelectionLine, TextVal(SelectionText(n)))], ControlPriority), None)
  {
    StatusLineFits(fc, n);
    SelectHead(fc, stamp, ch, v);
    ThenSnoc(SelectHeadOut(fc, stamp, ch, v), Build(fc, [Spec(SelectionLine, 'S', PyStr(SelectionText(n)))], ControlPriority),
             Logged(stamp, SelectorMessage(fc, v)), Zeros(OtherSelectors(ch)), Cmd(SelectionLine, TextVal(SelectionText(n))), ControlPriority);
  }

  lemma StatusLineFits(fc: FloatCodec, n: Option<int>)
    requires Printable(SelectionText(n))
    ensures Build(fc, [Spec(SelectionLine, 'S', PyStr(SelectionText(n)))], ControlPriority)
            == Out([Sent(Cmd(SelectionLine, TextVal(SelectionText(n))), ControlPriority)], None)
  {
    TextFits(fc, SelectionLine, SelectionText(n), ControlPriority);
  }

  /**
   * Selecting a chart with exactly one fully configured channel queues the
   * console line, the other selectors' zeros, the status line and the
   * channel's enable code, model and sample rate, and raises nothing.
   */
  lemma SelectFound(fc: FloatCodec, stamp: string, st: ControlState, ch: int, v: Value, n: int)
    requires FirstSelector <= ch <= LastSelector && v != FloatVal(0.0)
    requires StampOk(stamp) && |stamp| + |SelectorMessage(fc, v)| <= 247
    requires CalculateName(ch, Payload(v)) == Ok(n) && Printable(SelectionText(Some(n)))
    requires var cs := ChartMatches(AllChannels(st.hw), n);
             |cs| == 1 && cs[0].config.Some? && cs[0].config.value.enabled.Some? && cs[0].config.value.sampleRate.Some?
             && Printable(ToText(fc, cs[0].model)) && Printable("SR: " + NumText(fc, cs[0].config.value.sampleRate.value))
    ensures var c := ChartMatches(AllChannels(st.hw), n)[0];
            var r := Select(fc, stamp, st, ch, v);
            && r.out.raised.None?
            && r.out.sent == [Logged(stamp, SelectorMessage(fc, v))]
                             + Sends(Zeros(OtherSelectors(ch))
                                     + [Cmd(SelectionLine, TextVal(SelectionText(Some(n))))]
                                     + [Cmd(EnableLine, FloatVal(EnableCode(c.config.value.enabled.value) as real)),
                                        Cmd(ModelLine, TextVal(ToText(fc, c.model))),
                                        Cmd(RateLine, TextVal("SR: " + NumText(fc, c.config.value.sampleRate.value)))], ControlPriority)
            && r.state.stored == Some(Stored(ch, Payload(v)))
  {
    var c := ChartMatches(AllChannels(st.hw), n)[0];
    var head := Zeros(OtherSelectors(ch)) + [Cmd(SelectionLine, TextVal(SelectionText(Some(n))))];
    var tail := [Cmd(EnableLine, FloatVal(EnableCode(c.config.value.enabled.value) as real)),
                 Cmd(ModelLine, TextVal(ToText(fc, c.model))),
                 Cmd(RateLine, TextVal("SR: " + NumText(fc, c.config.value.sampleRate.value)))];
    SelectSends(fc, stamp, st, ch, v, Some(n));
    ReportFound(fc, AllChannels(st.hw), n);
    SendsAppend(head, tail, ControlPriority);
    ThenQuiet([Logged(stamp, SelectorMessage(fc, v))], head, tail, ControlPriority);
  }

  /** Two quiet stretches of sends in a row are one. */
  lemma ThenQuiet(first: seq<Sent>, a: seq<Command>, b: seq<Command>, priority: int)
    ensures Then(Out(first + Sends(a, priority), None), Out(Sends(b, priority), None)) == Out(first + Sends(a + b, priority), None)
  {
    SendsAppend(a, b, priority);
  }

  /** Selecting a chart nobody is on reports "not found"; nothing is raised. */
  lemma SelectNotFound(fc: FloatCodec, stamp: string, st: ControlState, ch: int, v: Value, n: int)
    requires FirstSelector <= ch <= LastSelector && v != FloatVal(0.0)
    requires StampOk(stamp) && |stamp| + |SelectorMessage(fc, v)| <= 247
    requires CalculateName(ch, Payload(v)) == Ok(n) && Printable(SelectionText(Some(n)))
    requires |ChartMatches(AllChannels(st.hw), n)| == 0
    ensures var r := Select(fc, stamp, st, ch, v);
            && r.out.raised.None?
            && r.out.sent == [Logged(stamp, SelectorMessage(fc, v))]
                             + Sends(Zeros(OtherSelectors(ch)) + [Cmd(SelectionLine, TextVal(SelectionText(Some(n))))] + NotFoundCommands,
                                     ControlPriority)
  {
    SelectSends(fc, stamp, st, ch, v, Some(n));
    ReportNotFound(fc, AllChannels(st.hw), Some(n));
    ThenQuiet([Logged(stamp, SelectorMessage(fc, v))], Zeros(OtherSelectors(ch)) + [Cmd(SelectionLine, TextVal(SelectionText(Some(n))))],
              NotFoundCommands, ControlPriority);
  }

  /** Two channels on the selected chart: the error is raised after the status line, and the selection stays stored. */
  lemma SelectAmbiguous(fc: FloatCodec, stamp: string, st: ControlState, ch: int, v: Value, n: int)
    requires FirstSelector <= ch <= LastSelector && v != FloatVal(0.0)
    requires StampOk(stamp) && |stamp| + |SelectorMessage(fc, v)| <= 247
    requires CalculateName(ch, Payload(v)) == Ok(n) && Printable(SelectionText(Some(n)))
    requires |ChartMatches(AllChannels(st.hw), n)| >= 2
    ensures var r := Select(fc, stamp, st, ch, v);
            && r.out.raised == Some(Exception)
            && r.out.sent == [Logged(stamp, SelectorMessage(fc, v))]
                             + Sends(Zeros(OtherSelectors(ch)) + [Cmd(SelectionLine, TextVal(SelectionText(Some(n))))], ControlPriority)
            && r.state.stored == Some(Stored(ch, Payload(v)))
  {
    SelectSends(fc, stamp, st, ch, v, Some(n));
    ReportAmbiguous(fc, AllChannels(st.hw), n);
  }

  /**
   * A selector value of 0 leaves the chart name unbound: the search raises
   * `UnboundLocalError` when any channel has a chart number, and reports
   * "not found" when none has.
   */
  lemma SelectZero(fc: FloatCodec, stamp: string, st: ControlState, ch: int)
    requires FirstSelector <= ch <= LastSelector
    requires StampOk(stamp) && |stamp| + |SelectorMessage(fc, FloatVal(0.0))| <= 247
    ensures var r := Select(fc, stamp, st, ch, FloatVal(0.0));
            var head := [Logged(stamp, SelectorMessage(fc, FloatVal(0.0)))]
                        + Sends(Zeros(OtherSelectors(ch)) + [Cmd(SelectionLine, TextVal(NoSelection))], ControlPriority);
            && ((exists c :: c in AllChannels(st.hw) && Charted(c)) ==> r.out == Out(head, Some(UnboundLocalError)))
            && ((forall c :: c in AllChannels(st.hw) ==> !Charted(c)) ==> r.out == Out(head + Sends(NotFoundCommands, ControlPriority), None))
  {
    if exists c :: c in AllChannels(st.hw) && Charted(c) {
      SelectZeroCharted(fc, stamp, st, ch);
    } else {
      SelectZeroBlank(fc, stamp, st, ch);
    }
  }

  lemma SelectZeroCharted(fc: FloatCodec, stamp: string, st: ControlState, ch: int)
    requires FirstSelector <= ch <= LastSelector
    requires StampOk(stamp) && |stamp| + |SelectorMessage(fc, FloatVal(0.0))| <= 247
    requires exists c :: c in AllChannels(st.hw) && Charted(c)
    ensures Select(fc, stamp, st, ch, FloatVal(0.0)).out
            == Out([Logged(stamp, SelectorMessage(fc, FloatVal(0.0)))]
                   + Sends(Zeros(OtherSelectors(ch)) + [Cmd(SelectionLine, TextVal(NoSelection))], ControlPriority), Some(UnboundLocalError))
  {
    NoSelectionPrintable();
    SelectSends(fc, stamp, st, ch, FloatVal(0.0), None);
    ThenRaises([Logged(stamp, SelectorMessage(fc, FloatVal(0.0)))]
               + Sends(Zeros(OtherSelectors(ch)) + [Cmd(SelectionLine, TextVal(NoSelection))], ControlPriority), UnboundLocalError);
  }

  lemma SelectZeroBlank(fc: FloatCodec, stamp: string, st: ControlState, ch: int)
    requires FirstSelector <= ch <= LastSelector
    requires StampOk(stamp) && |stamp| + |SelectorMessage(fc, FloatVal(0.0))| <= 247
    requires forall c :: c in AllChannels(st.hw) ==> !Charted(c)
    ensures Select(fc, stamp, st, ch, FloatVal(0.0)).out
            == Out([Logged(stamp, SelectorMessage(fc, FloatVal(0.0)))]
                   + Sends(Zeros(OtherSelectors(ch)) + [Cmd(SelectionLine, TextVal(NoSelection))], ControlPriority)
                   + Sends(NotFoundCommands, ControlPriority), None)
  {
    NoSelectionPrintable();
    SelectSends(fc, stamp, st, ch, FloatVal(0.0), None);
    ReportNotFound(fc, AllChannels(st.hw), None);
  }

  /** The dependent console line, which every dependent command with a selection sends first. */
  lemma DependHead(fc: FloatCodec, stamp: string, ch: int, v: Value)
    requires StampOk(stamp) && |stamp| + |DependentMessage(fc, ch, v)| <= 247
    ensures PrintConsole(Quiet, fc, stamp, DependentMessage(fc, ch, v)) == Out([Logged(stamp, DependentMessage(fc, ch, v))], None)
  {
    PrintConsoleFits(Quiet, fc, stamp, DependentMessage(fc, ch, v));
  }

  /** The enable change on a channel that has an `enabled` setting, after a quiet start. */
  lemma EnableChanged(fc: FloatCodec, stamp: string, o: Out, v: Value, n: int, c: Channel)
    requires o.raised.None? && c.config.Some? && c.config.value.enabled.Some? && FloatOf(fc, Payload(v)).Ok?
    requires StampOk(stamp) && |stamp| + |UpdateMessage(fc, EnableCommand, n, BoolText(c.config.value.enabled.value), v)| <= 247
    ensures var on := FloatOf(fc, Payload(v)).value == 2.0;
            ChangeEnable(fc, stamp, o, v, n, c)
              == Changed(Out(o.sent + [Logged(stamp, UpdateMessage(fc, EnableCommand, n, BoolText(c.config.value.enabled.value), v)),
                                       Sent(Cmd(EnableLine, FloatVal(EnableCode(on) as real)), ControlPriority)], None),
                         Some(SetEnabled(on)))
  {
    var msg := UpdateMessage(fc, EnableCommand, n, BoolText(c.config.value.enabled.value), v);
    var on := FloatOf(fc, Payload(v)).value == 2.0;
    PrintConsoleFits(o, fc, stamp, msg);
    EnableFits(fc, on);
    SnocTwo(o.sent, Logged(stamp, msg), Sent(Cmd(EnableLine, FloatVal(EnableCode(on) as real)), ControlPriority));
  }

  lemma SnocTwo<X>(s: seq<X>, a: X, b: X)
    ensures s + [a] + [b] == s + [a, b]
  {
  }

  /**
   * 830 after a selection naming exactly one channel with an `enabled`
   * setting: two console lines, the new enable code on 829, the reset of
   * the selector displays; the channel's `enabled` becomes whether the
   * value is 2, and the stored value becomes `None`.
   */
  lemma EnableSequence(fc: FloatCodec, parse: string -> Result<Model>, stamp: string, st: ControlState, v: Value, n: int)
    requires st.stored.Some? && CalculateName(st.stored.value.channel, st.stored.value.value) == Ok(n)
    requires var cs := ChartMatches(AllChannels(st.hw), n);
             |cs| == 1 && cs[0].config.Some? && cs[0].config.value.enabled.Some?
    requires FloatOf(fc, Payload(v)).Ok?
    requires StampOk(stamp) && |stamp| + |DependentMessage(fc, EnableCommand, v)| <= 247
    requires var c := ChartMatches(AllChannels(st.hw), n)[0];
             |stamp| + |UpdateMessage(fc, EnableCommand, n, BoolText(c.config.value.enabled.value), v)| <= 247
    ensures var c := ChartMatches(AllChannels(st.hw), n)[0];
            var on := FloatOf(fc, Payload(v)).value == 2.0;
            var r := Depend(fc, parse, stamp, st, EnableCommand, v);
            && r.out == Out([Logged(stamp, DependentMessage(fc, EnableCommand, v))]
                            + [Logged(stamp, UpdateMessage(fc, EnableCommand, n, BoolText(c.config.value.enabled.value), v)),
                             Sent(Cmd(EnableLine, FloatVal(EnableCode(on) as real)), ControlPriority)]
                            + Sends(ResetCommands, ControlPriority), None)
            && r.state == ControlState(Some(st.stored.value.(value := PyNone)), Retune(st.hw, n, SetEnabled(on)))
  {
    var c := ChartMatches(AllChannels(st.hw), n)[0];
    DependHead(fc, stamp, EnableCommand, v);
    EnableChanged(fc, stamp, Out([Logged(stamp, DependentMessage(fc, EnableCommand, v))], None), v, n, c);
    ResetFits(fc);
  }

  /** Without a selection a dependent command only prints, and nothing changes. */
  lemma WithoutSelection(fc: FloatCodec, parse: string -> Result<Model>, stamp: string, st: ControlState, ch: int, v: Value)
    requires ch in {EnableCommand, ModelCommand, RateCommand} && st.stored.None?
    requires StampOk(stamp) && |stamp| + |UnselectedMessage(ch)| <= 247
    ensures Depend(fc, parse, stamp, st, ch, v) == Executed(Out([Logged(stamp, UnselectedMessage(ch))], None), st, NoConfig)
  {
    PrintConsoleFits(Quiet, fc, stamp, UnselectedMessage(ch));
  }

  /**
   * A consumed selection: once a dependent command has succeeded, the next
   * dependent command fails in `int(None)` after its console line, and
   * changes nothing.
   */
  lemma SelectionConsumed(fc: FloatCodec, parse: string -> Result<Model>, stamp: string, st: ControlState, ch: int, v: Value,
                          stamp2: string, ch2: int, v2: Value)
    requires ch in {EnableCommand, ModelCommand, RateCommand} && ch2 in {EnableCommand, ModelCommand, RateCommand}
    requires st.stored.Some? && Depend(fc, parse, stamp, st, ch, v).out.raised.None?
    requires StampOk(stamp2) && |stamp2| + |DependentMessage(fc, ch2, v2)| <= 247
    ensures var mid := Depend(fc, parse, stamp, st, ch, v).state;
            Depend(fc, parse, stamp2, mid, ch2, v2) == Executed(Out([Logged(stamp2, DependentMessage(fc, ch2, v2))], Some(TypeError)), mid, NoConfig)
  {
    var mid := Depend(fc, parse, stamp, st, ch, v).state;
    DependHead(fc, stamp2, ch2, v2);
    assert mid.stored.value.value == PyNone;
  }

  // ---------------------------------------------------------------------
  // The control loop and its manager
  // ---------------------------------------------------------------------

  /** `ControlTaskManager.add_command_to_task`: the caller's priority is dropped; every command is queued at 5. */
  function AddCommandToTask(q: Queue<Command>, cmd: Command, priority: int): (r: Queue<Command>)
    ensures r.entries == q.entries + [Entry(DefaultPriority, q.counter, cmd)]
    ensures r.counter == q.counter + 1
  {
    Put(q, cmd, DefaultPriority)
  }

  /** One pass of the control loop: what it took, what it sent, the state and queue after it and the caught exception. */
  datatype Turn = Turn(taken: Option<Command>, sent: seq<Sent>, state: ControlState, queue: Queue<Command>, caught: Option<PyError>, config: ConfigAction)

  /**
   * `_control_loop` once: take the least command (an empty queue only
   * times out), echo it to the send queue with its priority, then execute it.
   */
  function ControlStep(fc: FloatCodec, parse: string -> Result<Model>, dir: string, stamp: string, st: ControlState, q: Queue<Command>): (r: Turn)
    ensures Size(q) == 0 ==> r == Turn(None, [], st, q, None, NoConfig)
    ensures Size(q) > 0 ==> r.taken.Some? && |r.sent| >= 1 && Size(r.queue) == Size(q) - 1
    ensures Size(q) > 0 ==> r.sent[0] == Sent(Get(q).value.item, Get(q).value.priority) && r.taken == Some(Get(q).value.item)
  {
    match Get(q)
    case Err(_) => Turn(None, [], st, q, None, NoConfig)
    case Ok(t) =>
      var e := Execute(fc, parse, dir, stamp, st, t.item);
      Turn(Some(t.item), [Sent(t.item, t.priority)] + e.out.sent, e.state, t.rest, e.out.raised, e.config)
  }

  /** The manager ignores the priority it is given. */
  lemma PriorityDropped(q: Queue<Command>, cmd: Command, p1: int, p2: int)
    ensures AddCommandToTask(q, cmd, p1) == AddCommandToTask(q, cmd, p2)
  {
  }

  /** A command forwarded to an idle control task, at any priority, is echoed at priority 5 and then executed. */
  lemma ForwardedEcho(fc: FloatCodec, parse: string -> Result<Model>, dir: string, stamp: string, st: ControlState, cmd: Command, priority: int)
    ensures var r := ControlStep(fc, parse, dir, stamp, st, AddCommandToTask(Empty(), cmd, priority));
            && r.taken == Some(cmd)
            && r.sent == [Sent(cmd, DefaultPriority)] + Execute(fc, parse, dir, stamp, st, cmd).out.sent
            && r.state == Execute(fc, parse, dir, stamp, st, cmd).state
            && Size(r.queue) == 0
  {
    var q := AddCommandToTask(Empty(), cmd, priority);
    assert q.entries == [Entry(DefaultPriority, 0, cmd)];
    assert Get(q).value.item == cmd && Get(q).value.priority == DefaultPriority;
  }
}
