/**
  The F' ground-data-system values both telemetry pollers read and the
  records they post: a channel history item (its channel's template, an
  id, a decoded value and the readable time), and the `{name, data: {id,
  val, time}}` record made of it.
 */
module Gds {
  import opened Json

  /** A decoded channel value: a scalar, or a struct (`dict`) of named members in order. */
  datatype ChanValue = Scalar(v: Value) | Struct(members: seq<(string, Value)>)

  /** The parts of a channel's dictionary template the pollers use; `typeName` is the type's `__name__`. */
  datatype ChannelTemplate = ChannelTemplate(compName: string, name: string, typeName: string)

  /** One history item; `time` stands for `time.to_readable()`, text the model does not interpret. */
  datatype HistItem = HistItem(id: int, template: ChannelTemplate, val: ChanValue, time: string)

  /** `{'name': name, 'data': {'id': id, 'val': val, 'time': time}}`. */
  datatype Record = Record(name: string, id: int, val: ChanValue, time: string)

  /** `str(comp_name) + '.' + str(name)`. */
  function ChannelName(t: ChannelTemplate): (r: string)
    ensures |r| == |t.compName| + 1 + |t.name| && r[|t.compName|] == '.'
  {
    t.compName + "." + t.name
  }

  /** The largest of the sizes of some batches, 0 for none. */
  function MaxSize(batches: seq<seq<HistItem>>): nat {
    if batches == [] then 0
    else
      var m := MaxSize(batches[..|batches| - 1]);
      var n := |batches[|batches| - 1]|;
      if n > m then n else m
  }

  /** The running maximum is an upper bound that some batch reaches (or 0 with no batch of any size). */
  lemma {:induction false} MaxSizeIsMaximum(batches: seq<seq<HistItem>>)
    ensures forall b :: b in batches ==> |b| <= MaxSize(batches)
    ensures MaxSize(batches) == 0 || exists b :: b in batches && |b| == MaxSize(batches)
  {
    if batches != [] {
      var init := batches[..|batches| - 1];
      MaxSizeIsMaximum(init);
      assert batches == init + [batches[|batches| - 1]];
      if MaxSize(init) > 0 && MaxSize(batches) == MaxSize(init) {
        var b :| b in init && |b| == MaxSize(init);
        assert b in batches;
      }
    }
  }

  /** The running maximum never goes down. */
  lemma MaxSizeGrows(batches: seq<seq<HistItem>>, batch: seq<HistItem>)
    ensures MaxSize(batches + [batch]) >= MaxSize(batches)
    ensures MaxSize(batches + [batch]) >= |batch|
  {
    assert (batches + [batch])[..|batches|] == batches;
  }
}
