/**
 * The channel registry: channel objects with a checked type name,
 * `ChannelManager` (input, output and multi channel lists under unique
 * names), and `MultiHardware`, a list of hardware managers searched in
 * order. Generators are modelled by what a consumer running them to the
 * end sees: the items yielded, then the exception raised, if any.
 */
module Channels {
  import opened Wrappers
  import opened Models

  /** `ChannelProperties.Type`: the thirteen channel type names. */
  const ChannelTypes: set<string> := {
    "digital_input", "digital_output", "frequency", "temperature", "voltage", "current",
    "weight", "pressure", "force", "torque", "angle", "velocity", "other"
  }

  /**
   * The class of a registered object, as far as the registry tells classes
   * apart. `MultiKind` is a `MultiChannel` that reads nothing itself (a
   * plain channel group, or one that is also an `OutputModule`, as the
   * stepper and servo modules are); `InputMultiKind` is a `MultiChannel`
   * that is also an `InputModule`, as the HX711 weigh-scale module is.
   * `InputModuleKind` and `OutputModuleKind` are modules of neither
   * channel class.
   */
  datatype Kind = InputKind | OutputKind | DigitalOutputKind | MultiKind | InputMultiKind | InputModuleKind | OutputModuleKind

  /** A channel's `config` keyword bag; `None` marks an attribute the bag does not have. */
  datatype Config = Config(enabled: Option<bool>, sampleRate: Option<Num>, chartNumber: Option<int>)

  /**
   * A channel object. `config` is `None` for an object without a `config`
   * attribute; the driver channels and modules build one from their
   * keyword arguments. `level` is the level a digital output last wrote.
   */
  datatype Channel = Channel(name: string, kind: Kind, typ: string, unit: string, model: Model, config: Option<Config>, level: int)

  /** `Channel.__init__`: the type must be one of `ChannelProperties.Type`. */
  function NewChannel(name: string, kind: Kind, typ: string, unit: string, model: Model, config: Option<Config>): (r: Result<Channel>)
    ensures r.Ok? <==> typ in ChannelTypes
    ensures r.Err? ==> r.error == ValueError
    ensures r.Ok? ==> r.value.name == name && r.value.kind == kind && r.value.typ == typ && r.value.model == model && r.value.config == config
  {
    if typ in ChannelTypes then Ok(Channel(name, kind, typ, unit, model, config, 0)) else Err(ValueError)
  }

  /** The module name Python records as `ChannelProperties.Type.__module__` when the package is imported. */
  const TypeModuleName: string := "MeasurementSystem.core.common.BaseClasses"

  /**
   * The other strings `vars(ChannelProperties.Type).values()` holds: the
   * class's `__module__` and its docstring (class creation drops
   * `__qualname__` from the namespace). The docstring keeps its indentation,
   * as Python 3.12 and earlier store it; Python 3.13 strips the common
   * leading whitespace.
   */
  const TypeClassStrings: set<string> := {
    TypeModuleName,
    "\n        :class:`Type` provides valid data types for ChannelProperties.Type\n        "
  }

  /** The type check as written: membership in all values of the class namespace (its method objects left aside). */
  function NewChannelAsWritten(name: string, kind: Kind, typ: string, unit: string, model: Model, config: Option<Config>): (r: Result<Channel>)
    ensures typ in ChannelTypes ==> r == NewChannel(name, kind, typ, unit, model, config)
    ensures r.Ok? <==> typ in ChannelTypes + TypeClassStrings
  {
    if typ in ChannelTypes + TypeClassStrings then Ok(Channel(name, kind, typ, unit, model, config, 0)) else Err(ValueError)
  }

  /** The module name passes the written check but is no channel type. */
  lemma ChannelTypeQuirk(name: string, kind: Kind, unit: string, model: Model)
    ensures NewChannelAsWritten(name, kind, TypeModuleName, unit, model, None).Ok?
    ensures NewChannel(name, kind, TypeModuleName, unit, model, None) == Err(ValueError)
  {
    assert TypeModuleName !in ChannelTypes by {
      assert |TypeModuleName| == 41;
      assert forall t | t in ChannelTypes :: |t| <= 14;
    }
  }

  // ---------------------------------------------------------------------
  // ChannelManager
  // ---------------------------------------------------------------------

  datatype Manager = Manager(inputs: seq<Channel>, outputs: seq<Channel>, multis: seq<Channel>, names: set<string>)

  function EmptyManager(): (m: Manager)
    ensures GetChannels(m) == [] && WellFormed(m)
  {
    Manager([], [], [], {})
  }

  /** `get_channels()`: inputs, then outputs, then multi channels, each in the order added. */
  function GetChannels(m: Manager): seq<Channel> {
    m.inputs + m.outputs + m.multis
  }

  function NameSet(cs: seq<Channel>): set<string> {
    set c | c in cs :: c.name
  }

  predicate DistinctNames(cs: seq<Channel>) {
    forall i, j :: 0 <= i < j < |cs| ==> cs[i].name != cs[j].name
  }

  /** The recorded names are exactly the names of the registered channels, each used once. */
  predicate WellFormed(m: Manager) {
    m.names == NameSet(GetChannels(m)) && DistinctNames(GetChannels(m))
  }

  /** One step of `add_channels`: the duplicate check, then the classification by class. */
  function AddChannel(m: Manager, c: Channel): (r: Result<Manager>)
    ensures c.name in m.names ==> r == Err(ValueError)
    ensures c.name !in m.names && c.kind in {InputModuleKind, OutputModuleKind} ==> r == Err(TypeError)
    ensures r.Ok? ==> r.value.names == m.names + {c.name}
    ensures r.Ok? && c.kind == InputKind ==> r.value == m.(inputs := m.inputs + [c], names := m.names + {c.name})
    ensures r.Ok? && c.kind in {OutputKind, DigitalOutputKind} ==> r.value == m.(outputs := m.outputs + [c], names := m.names + {c.name})
    ensures r.Ok? && c.kind in {MultiKind, InputMultiKind} ==> r.value == m.(multis := m.multis + [c], names := m.names + {c.name})
    ensures r.Ok? <==> c.name !in m.names && c.kind !in {InputModuleKind, OutputModuleKind}
  {
    if c.name in m.names then Err(ValueError)
    else
      match c.kind
      case InputKind => Ok(m.(inputs := m.inputs + [c], names := m.names + {c.name}))
      case OutputKind => Ok(m.(outputs := m.outputs + [c], names := m.names + {c.name}))
      case DigitalOutputKind => Ok(m.(outputs := m.outputs + [c], names := m.names + {c.name}))
      case MultiKind => Ok(m.(multis := m.multis + [c], names := m.names + {c.name}))
      case InputMultiKind => Ok(m.(multis := m.multis + [c], names := m.names + {c.name}))
      case InputModuleKind => Err(TypeError)
      case OutputModuleKind => Err(TypeError)
  }

  /** The manager after a call, and the exception it raised, if any. */
  datatype Added = Added(manager: Manager, error: Option<PyError>)

  /** `add_channels(list)`: one channel after the other; a failure keeps the channels added before it. */
  function AddChannels(m: Manager, cs: seq<Channel>): (r: Added)
    ensures r.error.Some? ==> r.error.value in {ValueError, TypeError}
    decreases |cs|
  {
    if |cs| == 0 then Added(m, None)
    else
      match AddChannel(m, cs[0])
      case Err(e) => Added(m, Some(e))
      case Ok(m') => AddChannels(m', cs[1..])
  }

  /** Where `add_channel` puts `c` in `get_channels()` order: at the end of its own list. */
  function Slot(m: Manager, c: Channel): nat {
    match c.kind
    case InputKind => |m.inputs|
    case MultiKind => |GetChannels(m)|
    case InputMultiKind => |GetChannels(m)|
    case _ => |m.inputs| + |m.outputs|
  }

  lemma AddChannelInserts(m: Manager, c: Channel)
    requires AddChannel(m, c).Ok?
    ensures Slot(m, c) <= |GetChannels(m)|
    ensures GetChannels(AddChannel(m, c).value) == GetChannels(m)[..Slot(m, c)] + [c] + GetChannels(m)[Slot(m, c)..]
  {
    var cs := GetChannels(m);
    if c.kind == InputKind {
      assert cs[..|m.inputs|] == m.inputs;
      assert cs[|m.inputs|..] == m.outputs + m.multis;
    } else if c.kind !in {MultiKind, InputMultiKind} {
      assert cs[..|m.inputs| + |m.outputs|] == m.inputs + m.outputs;
      assert cs[|m.inputs| + |m.outputs|..] == m.multis;
    }
  }

  /** Inserting a channel with a fresh name keeps the names distinct. */
  lemma InsertDistinct(cs: seq<Channel>, p: nat, c: Channel)
    requires p <= |cs| && DistinctNames(cs) && c.name !in NameSet(cs)
    ensures DistinctNames(cs[..p] + [c] + cs[p..])
  {
    var cs' := cs[..p] + [c] + cs[p..];
    forall i, j | 0 <= i < j < |cs'|
      ensures cs'[i].name != cs'[j].name
    {
      if i == p {
        assert cs'[j] == cs[j - 1];
      } else if j == p {
        assert cs'[i] == cs[i];
      } else {
        var i' := if i < p then i else i - 1;
        var j' := if j < p then j else j - 1;
        assert cs'[i] == cs[i'] && cs'[j] == cs[j'];
      }
    }
  }

  /** A successful `add_channel` keeps the registry well formed, with `c` added at the end of its list. */
  lemma AddChannelWellFormed(m: Manager, c: Channel)
    requires WellFormed(m) && AddChannel(m, c).Ok?
    ensures WellFormed(AddChannel(m, c).value)
    ensures multiset(GetChannels(AddChannel(m, c).value)) == multiset(GetChannels(m)) + multiset{c}
  {
    var cs := GetChannels(m);
    var p := Slot(m, c);
    AddChannelInserts(m, c);
    InsertDistinct(cs, p, c);
    var cs' := GetChannels(AddChannel(m, c).value);
    assert cs == cs[..p] + cs[p..];
    assert NameSet(cs') == NameSet(cs) + {c.name} by {
      assert forall x :: x in cs' <==> x in cs[..p] || x == c || x in cs[p..];
      assert forall x :: x in cs <==> x in cs[..p] || x in cs[p..];
    }
  }

  /**
   * A registry that is well formed stays so through `add_channels`,
   * whether it completes or stops at a duplicate or unclassifiable channel.
   */
  lemma {:induction false} AddChannelsWellFormed(m: Manager, cs: seq<Channel>)
    requires WellFormed(m)
    ensures WellFormed(AddChannels(m, cs).manager)
    ensures AddChannels(m, cs).error.None? ==> AddChannels(m, cs).manager.names == m.names + NameSet(cs)
    decreases |cs|
  {
    if |cs| > 0 && AddChannel(m, cs[0]).Ok? {
      var m' := AddChannel(m, cs[0]).value;
      AddChannelWellFormed(m, cs[0]);
      AddChannelsWellFormed(m', cs[1..]);
      assert NameSet(cs) == {cs[0].name} + NameSet(cs[1..]) by {
        assert forall x :: x in cs <==> x == cs[0] || x in cs[1..];
      }
    }
  }

  /**
   * No rollback: when `add_channels` raises, the registry is what adding
   * the channels before the failing one leaves, and the failing one is
   * rejected by that registry.
   */
  lemma {:induction false} AddChannelsStops(m: Manager, cs: seq<Channel>)
    requires AddChannels(m, cs).error.Some?
    ensures var r := AddChannels(m, cs);
            exists k :: 0 <= k < |cs| && AddChannels(m, cs[..k]) == Added(r.manager, None)
                        && AddChannel(r.manager, cs[k]) == Err(r.error.value)
    decreases |cs|
  {
    var r := AddChannels(m, cs);
    if AddChannel(m, cs[0]).Err? {
      assert cs[..0] == [];
      assert AddChannels(m, cs[..0]) == Added(r.manager, None);
    } else {
      var m' := AddChannel(m, cs[0]).value;
      assert r == AddChannels(m', cs[1..]);
      AddChannelsStops(m', cs[1..]);
      var k :| 0 <= k < |cs[1..]| && AddChannels(m', cs[1..][..k]) == Added(r.manager, None)
               && AddChannel(r.manager, cs[1..][k]) == Err(r.error.value);
      assert cs[..k + 1][0] == cs[0];
      assert cs[..k + 1][1..] == cs[1..][..k];
      assert AddChannels(m, cs[..k + 1]) == Added(r.manager, None);
      assert cs[k + 1] == cs[1..][k];
    }
  }

  /** Adding the same name twice raises `ValueError` and keeps the first. */
  lemma DuplicateRejected(c: Channel, d: Channel)
    requires c.kind == InputKind && d.name == c.name
    ensures AddChannels(EmptyManager(), [c, d]) == Added(Manager([c], [], [], {c.name}), Some(ValueError))
  {
  }

  // ---------------------------------------------------------------------
  // Generators
  // ---------------------------------------------------------------------

  /** A generator run to its end: what it yielded, then what it raised (`None`: plain exhaustion). */
  datatype Gen<T> = Gen(yielded: seq<T>, raised: Option<PyError>)

  /** `next(gen)`: the first item, else the generator's exception, else `StopIteration`. */
  function Next<T>(g: Gen<T>): (r: Result<T>)
    ensures |g.yielded| > 0 <==> r.Ok?
    ensures r.Ok? ==> r.value == g.yielded[0]
  {
    if |g.yielded| > 0 then Ok(g.yielded[0])
    else if g.raised.Some? then Err(g.raised.value)
    else Err(StopIteration)
  }

  function Named(cs: seq<Channel>, name: string): (r: seq<Channel>)
    ensures |r| <= |cs|
    ensures forall c :: c in r ==> c in cs && c.name == name
  {
    if |cs| == 0 then []
    else (if cs[0].name == name then [cs[0]] else []) + Named(cs[1..], name)
  }

  /** `get_channels_by_name`: every channel of that name in order, then always `ValueError`. */
  function ByName(m: Manager, name: string): (g: Gen<Channel>)
    ensures g.raised == Some(ValueError)
    ensures forall c :: c in g.yielded ==> c in GetChannels(m) && c.name == name
  {
    Gen(Named(GetChannels(m), name), Some(ValueError))
  }

  lemma {:induction false} NamedUnique(cs: seq<Channel>, name: string)
    requires DistinctNames(cs)
    ensures |Named(cs, name)| == if name in NameSet(cs) then 1 else 0
    ensures name in NameSet(cs) ==> Named(cs, name)[0].name == name
  {
    if |cs| > 0 {
      assert DistinctNames(cs[1..]) by {
        forall i, j | 0 <= i < j < |cs[1..]|
          ensures cs[1..][i].name != cs[1..][j].name
        {
          assert cs[1..][i] == cs[i + 1] && cs[1..][j] == cs[j + 1];
        }
      }
      NamedUnique(cs[1..], name);
      assert NameSet(cs) == {cs[0].name} + NameSet(cs[1..]) by {
        assert forall x :: x in cs <==> x == cs[0] || x in cs[1..];
      }
      if cs[0].name == name {
        assert name !in NameSet(cs[1..]) by {
          forall x | x in cs[1..]
            ensures x.name != name
          {
            var j :| 0 <= j < |cs[1..]| && cs[1..][j] == x;
            assert cs[j + 1] == x;
          }
        }
      }
    }
  }

  /**
   * In a well-formed registry a lookup by name yields one channel when the
   * name is registered and none otherwise, and raises `ValueError` either
   * way: `next()` on it finds the channel or fails.
   */
  lemma ByNameFinds(m: Manager, name: string)
    requires WellFormed(m)
    ensures |ByName(m, name).yielded| == if name in m.names then 1 else 0
    ensures Next(ByName(m, name)).Ok? <==> name in m.names
    ensures name !in m.names ==> Next(ByName(m, name)) == Err(ValueError)
  {
    NamedUnique(GetChannels(m), name);
  }

  /**
   * `get_channels_by_type` compares the class `ChannelProperties.Type` with
   * the argument string, which is never equal: it yields nothing, even for
   * a type some registered channel has.
   */
  function ByType(m: Manager, typ: string): (g: Gen<Channel>)
    ensures |g.yielded| == 0 && g.raised.None?
  {
    Gen(Named([], typ), None)
  }

  /** `close()`: each channel not closed yet is closed, in `get_channels()` order. */
  function CloseAll(cs: seq<Channel>, closed: set<Channel>): (r: seq<Channel>)
    ensures forall c :: c in r ==> c in cs && c !in closed
    ensures forall c :: c in cs && c !in closed ==> c in r
    ensures forall i, j :: 0 <= i < j < |r| ==> r[i] != r[j]
  {
    if |cs| == 0 then []
    else if cs[0] in closed then CloseAll(cs[1..], closed)
    else [cs[0]] + CloseAll(cs[1..], closed + {cs[0]})
  }

  function Close(m: Manager): (r: seq<Channel>)
    ensures forall c :: c in r <==> c in GetChannels(m)
  {
    CloseAll(GetChannels(m), {})
  }

  /** With unique names nothing is skipped: the channels are closed exactly in `get_channels()` order. */
  lemma CloseInOrder(m: Manager)
    requires WellFormed(m)
    ensures Close(m) == GetChannels(m)
  {
    CloseDistinct(GetChannels(m), {});
  }

  lemma {:induction false} CloseDistinct(cs: seq<Channel>, closed: set<Channel>)
    requires DistinctNames(cs)
    requires forall c :: c in cs ==> c !in closed
    ensures CloseAll(cs, closed) == cs
  {
    if |cs| > 0 {
      forall c | c in cs[1..]
        ensures c !in closed + {cs[0]}
      {
        var j :| 0 <= j < |cs[1..]| && cs[1..][j] == c;
        assert cs[j + 1] == c;
      }
      assert DistinctNames(cs[1..]) by {
        forall i, j | 0 <= i < j < |cs[1..]|
          ensures cs[1..][i].name != cs[1..][j].name
        {
          assert cs[1..][i] == cs[i + 1] && cs[1..][j] == cs[j + 1];
        }
      }
      CloseDistinct(cs[1..], closed + {cs[0]});
    }
  }

  // ---------------------------------------------------------------------
  // MultiHardware
  // ---------------------------------------------------------------------

  /** A hardware object: a channel manager with a name. */
  datatype Hardware = Hardware(name: string, channels: Manager)

  datatype MultiHardware = MultiHardware(name: string, hardware: seq<Hardware>)

  /** The argument of `add_hardware`: a `Hardware` instance or any other object. */
  datatype Device = HardwareDevice(hw: Hardware) | OtherDevice

  function AddHardware(mh: MultiHardware, d: Device): (r: Result<MultiHardware>)
    ensures r.Ok? <==> d.HardwareDevice?
    ensures r.Err? ==> r.error == TypeError
    ensures r.Ok? ==> r.value.hardware == mh.hardware + [d.hw] && r.value.name == mh.name
  {
    match d
    case HardwareDevice(hw) => Ok(mh.(hardware := mh.hardware + [hw]))
    case OtherDevice => Err(TypeError)
  }

  function ChannelsOf(hs: seq<Hardware>): seq<Channel> {
    if |hs| == 0 then [] else ChannelsOf(hs[..|hs| - 1]) + GetChannels(hs[|hs| - 1].channels)
  }

  /** `MultiHardware.get_channels()`: every hardware's channels, hardware by hardware. */
  function AllChannels(mh: MultiHardware): (cs: seq<Channel>)
    ensures forall c :: c in cs <==> exists k :: 0 <= k < |mh.hardware| && c in GetChannels(mh.hardware[k].channels)
  {
    ChannelsIn(mh.hardware);
    ChannelsOf(mh.hardware)
  }

  lemma {:induction false} ChannelsIn(hs: seq<Hardware>)
    ensures forall c :: c in ChannelsOf(hs) <==> exists k :: 0 <= k < |hs| && c in GetChannels(hs[k].channels)
  {
    if |hs| > 0 {
      var init := hs[..|hs| - 1];
      ChannelsIn(init);
      forall c | c in ChannelsOf(hs)
        ensures exists k :: 0 <= k < |hs| && c in GetChannels(hs[k].channels)
      {
        if c in ChannelsOf(init) {
          var k :| 0 <= k < |init| && c in GetChannels(init[k].channels);
          assert hs[k] == init[k];
        } else {
          assert c in GetChannels(hs[|hs| - 1].channels);
        }
      }
      forall c, k | 0 <= k < |hs| && c in GetChannels(hs[k].channels)
        ensures c in ChannelsOf(hs)
      {
        if k < |hs| - 1 {
          assert init[k] == hs[k];
        }
      }
    }
  }

  /** Adding hardware appends its channels to the combined view. */
  lemma AddHardwareChannels(mh: MultiHardware, hw: Hardware)
    ensures AllChannels(AddHardware(mh, HardwareDevice(hw)).value) == AllChannels(mh) + GetChannels(hw.channels)
  {
    assert (mh.hardware + [hw])[..|mh.hardware|] == mh.hardware;
  }

  /**
   * `MultiHardware.get_channels_by_name`: the first hardware's lookup
   * raises once its matches are exhausted, so the search never reaches the
   * second hardware; with no hardware the generator is simply empty.
   */
  function MultiByName(mh: MultiHardware, name: string): (g: Gen<Channel>)
    ensures |mh.hardware| == 0 ==> g == Gen([], None)
    ensures |mh.hardware| > 0 ==> g == ByName(mh.hardware[0].channels, name)
  {
    if |mh.hardware| == 0 then Gen([], None) else ByName(mh.hardware[0].channels, name)
  }

  /** A channel registered only on the second hardware is never found by name. */
  lemma SecondHardwareUnsearched(mh: MultiHardware, name: string)
    requires |mh.hardware| >= 2 && WellFormed(mh.hardware[0].channels)
    requires name !in mh.hardware[0].channels.names && name in mh.hardware[1].channels.names
    requires WellFormed(mh.hardware[1].channels)
    ensures Next(MultiByName(mh, name)) == Err(ValueError)
    ensures exists c :: c in AllChannels(mh) && c.name == name
  {
    ByNameFinds(mh.hardware[0].channels, name);
    var cs := GetChannels(mh.hardware[1].channels);
    var c :| c in cs && c.name == name;
    assert c in AllChannels(mh);
  }

  /** `MultiHardware.get_channels_by_type`: every hardware's lookup yields nothing and ends quietly. */
  function MultiByType(mh: MultiHardware, typ: string): (g: Gen<Channel>)
    ensures g.yielded == [] && g.raised.None?
    decreases |mh.hardware|
  {
    if |mh.hardware| == 0 then Gen([], None)
    else
      var first := ByType(mh.hardware[0].channels, typ);
      var rest := MultiByType(mh.(hardware := mh.hardware[1..]), typ);
      Gen(first.yielded + rest.yielded, rest.raised)
  }

  /** `MultiHardware.close()`: each hardware closes its channels, hardware by hardware. */
  function MultiClose(mh: MultiHardware): (r: seq<Channel>)
    ensures forall c :: c in r <==> c in AllChannels(mh)
  {
    ChannelsIn(mh.hardware);
    CloseEach(mh.hardware)
  }

  function CloseEach(hs: seq<Hardware>): (r: seq<Channel>)
    ensures forall c :: c in r <==> exists k :: 0 <= k < |hs| && c in GetChannels(hs[k].channels)
  {
    if |hs| == 0 then []
    else
      var r := CloseEach(hs[..|hs| - 1]) + Close(hs[|hs| - 1].channels);
      assert forall k :: 0 <= k < |hs| - 1 ==> hs[..|hs| - 1][k] == hs[k];
      r
  }
}
