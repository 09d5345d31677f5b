/**
 * `Data`: an append-only list of `(value, timestamp)` samples. The clock
 * that stamps a sample is a parameter of `AddValue`.
 */
module DataBuffer {
  import opened Wrappers

  /** One sample: the value and its time stamp in nanoseconds. */
  datatype Sample = Sample(value: real, time: int)

  datatype Data = Data(samples: seq<Sample>)

  /** `Data()`: a buffer without samples. */
  function New(): (d: Data)
    ensures GetAll(d) == [] && GetLast(d) == None
  {
    Data([])
  }

  /** `get_count()`. */
  function Count(d: Data): (n: nat)
    ensures n == |GetAll(d)|
  {
    |d.samples|
  }

  /** `add_value(value)` when the clock reads `now`: the sample goes to the end. */
  function AddValue(d: Data, value: real, now: int): (r: Data)
    ensures Count(r) == Count(d) + 1
    ensures GetLast(r) == Some(Sample(value, now))
    ensures GetAll(r)[..Count(d)] == GetAll(d)
    ensures GetAll(r) == GetAll(d) + [Sample(value, now)]
  {
    Data(d.samples + [Sample(value, now)])
  }

  /** `clear()`. */
  function Clear(d: Data): (r: Data)
    ensures GetAll(r) == [] && GetLast(r) == None
  {
    Data([])
  }

  /** `get_last()`: the newest sample, or `None` for an empty buffer. */
  function GetLast(d: Data): (r: Option<Sample>)
    ensures r.None? <==> Count(d) == 0
    ensures r.Some? ==> r.value == GetAll(d)[Count(d) - 1]
  {
    if |d.samples| > 0 then Some(d.samples[|d.samples| - 1]) else None
  }

  /** `get_all()`: the samples as a copy, oldest first. */
  function GetAll(d: Data): (all: seq<Sample>)
    ensures |all| == |d.samples|
    ensures forall i :: 0 <= i < |all| ==> all[i] == d.samples[i]
  {
    d.samples
  }

  /** `iter(data)`: the samples in the same order as `get_all()`. */
  function Iter(d: Data): (it: seq<Sample>)
    ensures it == GetAll(d)
  {
    d.samples
  }

  /** Adding values one at a time, the `i`-th with the `i`-th clock reading. */
  function AddValues(d: Data, values: seq<real>, times: seq<int>): (r: Data)
    requires |values| == |times|
    ensures Count(r) == Count(d) + |values|
    decreases |values|
  {
    if |values| == 0 then d
    else AddValues(AddValue(d, values[0], times[0]), values[1..], times[1..])
  }

  /** A fresh buffer fed with values returns exactly those samples in insertion order. */
  lemma {:induction false} AddValuesInOrder(d: Data, values: seq<real>, times: seq<int>)
    requires |values| == |times|
    ensures var all := GetAll(AddValues(d, values, times));
            && all[..Count(d)] == GetAll(d)
            && forall i :: 0 <= i < |values| ==> all[Count(d) + i] == Sample(values[i], times[i])
    decreases |values|
  {
    if |values| > 0 {
      var d' := AddValue(d, values[0], times[0]);
      AddValuesInOrder(d', values[1..], times[1..]);
      var all := GetAll(AddValues(d, values, times));
      assert all[..Count(d')][..Count(d)] == all[..Count(d)];
      forall i | 0 <= i < |values|
        ensures all[Count(d) + i] == Sample(values[i], times[i])
      {
        if i == 0 {
          assert all[Count(d)] == all[..Count(d')][Count(d)];
        } else {
          assert values[1..][i - 1] == values[i] && times[1..][i - 1] == times[i];
        }
      }
    }
  }

  /** A copy taken by `get_all()` is a prefix of every later copy, however many values follow. */
  lemma SnapshotIsPrefix(d: Data, values: seq<real>, times: seq<int>)
    requires |values| == |times|
    ensures GetAll(d) <= GetAll(AddValues(d, values, times))
  {
    AddValuesInOrder(d, values, times);
  }
}
