/**
 * `Serializable.to_dict`: an object becomes a dictionary of its identity,
 * class, module and public attributes, converting attribute values that
 * are themselves serializable objects, and nothing else.
 */
module Serial {
  import opened PyText

  /**
   * The Python values `to_dict` meets. An `Instance` carries its `id()`,
   * its class name, the name of its defining module (`home`), whether its class derives from
   * `Serializable`, and its `__dict__` in insertion order.
   */
  datatype Obj =
    | Plain(v: PyVal)
    | List(items: seq<Obj>)
    | Dict(entries: seq<(string, Obj)>)
    | Instance(id: int, cls: string, home: string, serializable: bool, attrs: seq<(string, Obj)>)

  predicate Public(key: string) {
    |key| == 0 || key[0] != '_'
  }

  /** `to_dict` on an instance. */
  function ToDict(o: Obj): (d: Obj)
    requires o.Instance?
    ensures d.Dict? && |d.entries| == 4
    ensures d.entries[0] == ("id", Plain(PyInt(o.id)))
    ensures d.entries[1] == ("class", Plain(PyStr(o.cls)))
    ensures d.entries[2] == ("module", Plain(PyStr(o.home)))
    ensures d.entries[3].0 == "attributes" && d.entries[3].1.Dict?
    decreases o, 2
  {
    Dict([("id", Plain(PyInt(o.id))), ("class", Plain(PyStr(o.cls))), ("module", Plain(PyStr(o.home))),
          ("attributes", Dict(Attributes(o, 0)))])
  }

  /** The dictionary comprehension over `__dict__.items()`, from the `i`-th attribute on. */
  function Attributes(o: Obj, i: nat): (r: seq<(string, Obj)>)
    requires o.Instance? && i <= |o.attrs|
    ensures |r| <= |o.attrs| - i
    ensures forall e :: e in r ==> Public(e.0)
    decreases o, 1, |o.attrs| - i
  {
    if i == |o.attrs| then []
    else
      var head := o.attrs[i];
      var rest := Attributes(o, i + 1);
      if !Public(head.0) then rest
      else [(head.0, Convert(head.1))] + rest
  }

  /** `v.to_dict() if isinstance(v, Serializable) else v`. */
  function Convert(v: Obj): (r: Obj)
    decreases v, 3
  {
    if v.Instance? && v.serializable then ToDict(v) else v
  }

  /** The keys of a dictionary, in order. */
  function Keys(entries: seq<(string, Obj)>): (ks: seq<string>)
    ensures |ks| == |entries|
    ensures forall i :: 0 <= i < |ks| ==> ks[i] == entries[i].0
  {
    if |entries| == 0 then [] else [entries[0].0] + Keys(entries[1..])
  }

  /** The public attribute names, in `__dict__` order: a reference filter for the comprehension's keys. */
  function PublicKeys(attrs: seq<(string, Obj)>): seq<string> {
    if |attrs| == 0 then []
    else (if Public(attrs[0].0) then [attrs[0].0] else []) + PublicKeys(attrs[1..])
  }

  lemma {:induction false} AttributeKeys(o: Obj, i: nat)
    requires o.Instance? && i <= |o.attrs|
    ensures Keys(Attributes(o, i)) == PublicKeys(o.attrs[i..])
    decreases |o.attrs| - i
  {
    if i < |o.attrs| {
      AttributeKeys(o, i + 1);
      assert o.attrs[i..][1..] == o.attrs[i + 1..];
      if Public(o.attrs[i].0) {
        assert Keys(Attributes(o, i)) == [o.attrs[i].0] + Keys(Attributes(o, i + 1));
      }
    }
  }

  /** The result has exactly the keys id, class, module and attributes; the attributes are the public ones, in order. */
  lemma ToDictKeys(o: Obj)
    requires o.Instance?
    ensures Keys(ToDict(o).entries) == ["id", "class", "module", "attributes"]
    ensures Keys(ToDict(o).entries[3].1.entries) == PublicKeys(o.attrs)
  {
    AttributeKeys(o, 0);
    assert o.attrs[0..] == o.attrs;
  }

  /**
   * Each public attribute keeps its value unless it is a serializable
   * instance, which is converted; a list, even of serializable
   * instances, is copied as it is.
   */
  lemma {:induction false} AttributeValues(o: Obj, i: nat, j: nat)
    requires o.Instance? && i <= j < |o.attrs| && Public(o.attrs[j].0)
    ensures var (k, v) := o.attrs[j];
            && (v.Instance? && v.serializable ==> (k, ToDict(v)) in Attributes(o, i))
            && (!(v.Instance? && v.serializable) ==> (k, v) in Attributes(o, i))
    decreases j - i
  {
    if i < j {
      AttributeValues(o, i + 1, j);
    }
  }
}
