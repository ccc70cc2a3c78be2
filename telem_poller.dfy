/**
  The packaged telemetry poller's pipeline (`TelemPipeline` of the
  `fprime_openmct` package): each poll replaces the batch of new channel
  history items, and `set_telem_json` turns the batch into the records it
  posts, one per scalar item and one per member of a struct item, and
  copies every record's value into the initial-state table.
 */
module TelemPoller {
  import opened Wrappers
  import opened Json
  import opened PyStrings
  import opened Gds

  /**
    The type part of a struct member's name: the type's `__name__` from its
    first `::` on, with every `::` removed. Without a `::`, `find` gives -1
    and the slice keeps only the last character.
   */
  function TypeSuffix(typeName: string): string {
    Replace(SliceFrom(typeName, Find(typeName, "::")), "::", "")
  }

  /** A qualified type name loses everything up to its first `::`, and the rest has no `::` left. */
  lemma TypeSuffixQualified(t: string)
    requires Find(t, "::") >= 0
    ensures TypeSuffix(t) == Replace(t[Find(t, "::") + 2..], "::", "")
    ensures NoDoubleColon(TypeSuffix(t))
  {
    var k := Find(t, "::");
    FindFirst(t, "::");
    var tail := t[k..];
    assert tail[..2] == "::" && tail[2..] == t[k + 2..];
    RemoveColonsLeavesNone(tail);
  }

  /** An unqualified type name contributes only its last character. */
  lemma TypeSuffixUnqualified(t: string)
    requires Find(t, "::") == -1
    ensures TypeSuffix(t) == if t == [] then [] else [t[|t| - 1]]
  {
    if t != [] {
      assert SliceFrom(t, -1) == [t[|t| - 1]];
    }
  }

  /** `comp_name.name.<type suffix>.<member>`. */
  function MemberName(t: ChannelTemplate, key: string): string {
    ChannelName(t) + "." + TypeSuffix(t.typeName) + "." + key
  }

  /** The record of member `i` of a struct item: its own name, the item's id plus `i`, the member's value. */
  function MemberRecord(h: HistItem, members: seq<(string, Value)>, i: nat): Record
    requires i < |members|
  {
    Record(MemberName(h.template, members[i].0), h.id + i, Scalar(members[i].1), h.time)
  }

  /** The records of the first `n` members of a struct item. */
  function MemberRecords(h: HistItem, members: seq<(string, Value)>, n: nat): (r: seq<Record>)
    requires n <= |members|
    ensures |r| == n
  {
    if n == 0 then [] else MemberRecords(h, members, n - 1) + [MemberRecord(h, members, n - 1)]
  }

  /**
    A struct yields one record per member, in member order, with ids counting
    up from the item's id, each carrying the member's value and the item's time.
   */
  lemma {:induction false} MemberRecordsInOrder(h: HistItem, members: seq<(string, Value)>, n: nat)
    requires n <= |members|
    ensures forall i :: 0 <= i < n ==>
      MemberRecords(h, members, n)[i] == Record(MemberName(h.template, members[i].0), h.id + i, Scalar(members[i].1), h.time)
  {
    if n > 0 {
      MemberRecordsInOrder(h, members, n - 1);
    }
  }

  /** Members with different keys get different names, so each has its own initial state. */
  lemma MemberNamesDiffer(t: ChannelTemplate, a: string, b: string)
    requires a != b
    ensures MemberName(t, a) != MemberName(t, b)
  {
    var prefix := ChannelName(t) + "." + TypeSuffix(t.typeName) + ".";
    var x, y := prefix + a, prefix + b;
    assert MemberName(t, a) == x && MemberName(t, b) == y;
    assert x[|prefix|..] == a && y[|prefix|..] == b;
  }

  /** The records of one item: one named `comp_name.name` for a scalar, one per member for a struct. */
  function ItemRecords(h: HistItem): (r: seq<Record>)
    ensures h.val.Scalar? ==> r == [Record(ChannelName(h.template), h.id, h.val, h.time)]
    ensures h.val.Struct? ==> |r| == |h.val.members|
  {
    match h.val
    case Scalar(_) => [Record(ChannelName(h.template), h.id, h.val, h.time)]
    case Struct(members) => MemberRecords(h, members, |members|)
  }

  /** The records of a batch, item by item. */
  function AllRecords(hist: seq<HistItem>): seq<Record> {
    if hist == [] then [] else AllRecords(hist[..|hist| - 1]) + ItemRecords(hist[|hist| - 1])
  }

  /** The initial-state table after each record's value is stored under its name, in order. */
  function SetAll(init: map<string, ChanValue>, recs: seq<Record>): (r: map<string, ChanValue>)
    ensures init.Keys <= r.Keys
  {
    if recs == [] then init
    else
      var last := recs[|recs| - 1];
      SetAll(init, recs[..|recs| - 1])[last.name := last.val]
  }

  lemma {:induction false} SetAllConcat(init: map<string, ChanValue>, a: seq<Record>, b: seq<Record>)
    ensures SetAll(init, a + b) == SetAll(SetAll(init, a), b)
    decreases |b|
  {
    if b == [] {
      assert a + b == a;
    } else {
      assert (a + b)[..|a + b| - 1] == a + b[..|b| - 1];
      SetAllConcat(init, a, b[..|b| - 1]);
    }
  }

  lemma SetAllSnoc(init: map<string, ChanValue>, recs: seq<Record>, rec: Record)
    ensures SetAll(init, recs + [rec]) == SetAll(init, recs)[rec.name := rec.val]
  {
    assert (recs + [rec])[..|recs|] == recs;
  }

  /** The value of the last record named `k`, if any. */
  function LastValue(recs: seq<Record>, k: string): (r: Option<ChanValue>)
    ensures r.None? <==> forall i :: 0 <= i < |recs| ==> recs[i].name != k
  {
    if recs == [] then None
    else if recs[|recs| - 1].name == k then Some(recs[|recs| - 1].val)
    else
      var r := LastValue(recs[..|recs| - 1], k);
      assert forall i :: 0 <= i < |recs| - 1 ==> recs[..|recs| - 1][i] == recs[i];
      r
  }

  /**
    Each name holds the value of the last record with that name; a name no
    record has keeps its entry, or stays absent.
   */
  lemma {:induction false} SetAllLastWins(init: map<string, ChanValue>, recs: seq<Record>)
    ensures forall k :: k in SetAll(init, recs) <==> k in init || LastValue(recs, k).Some?
    ensures forall k :: k in SetAll(init, recs) ==>
      SetAll(init, recs)[k] == match LastValue(recs, k) case Some(v) => v case None => init[k]
  {
    if recs != [] {
      SetAllLastWins(init, recs[..|recs| - 1]);
    }
  }

  /** The inner loop over a struct's members, counter `i`. */
  method FlattenStruct(h: HistItem, members: seq<(string, Value)>, data: seq<Record>, init: map<string, ChanValue>, writeable: bool)
    returns (data': seq<Record>, init': map<string, ChanValue>)
    requires writeable
    ensures data' == data + MemberRecords(h, members, |members|)
    ensures init' == SetAll(init, MemberRecords(h, members, |members|))
  {
    data', init' := data, init;
    var i := 0;
    while i < |members|
      invariant 0 <= i <= |members|
      invariant data' == data + MemberRecords(h, members, i)
      invariant init' == SetAll(init, MemberRecords(h, members, i))
    {
      var rec := MemberRecord(h, members, i);
      SetAllSnoc(init, MemberRecords(h, members, i), rec);
      assert MemberRecords(h, members, i + 1) == MemberRecords(h, members, i) + [rec];
      data' := data' + [rec];
      if writeable {
        init' := init'[rec.name := rec.val];
      }
      i := i + 1;
    }
  }

  /** The loop of `set_telem_json` over the batch, from an empty record list. */
  method ProcessHistory(hist: seq<HistItem>, init: map<string, ChanValue>, writeable: bool)
    returns (data: seq<Record>, init': map<string, ChanValue>, writeable': bool)
    ensures data == AllRecords(hist)
    ensures init' == SetAll(init, AllRecords(hist))
    ensures writeable' == (writeable || hist != [])
  {
    data, init', writeable' := [], init, writeable;
    var j := 0;
    while j < |hist|
      invariant 0 <= j <= |hist|
      invariant data == AllRecords(hist[..j])
      invariant init' == SetAll(init, AllRecords(hist[..j]))
      invariant writeable' == (writeable || j > 0)
    {
      var h := hist[j];
      assert hist[..j + 1][..j] == hist[..j];
      SetAllConcat(init, AllRecords(hist[..j]), ItemRecords(h));
      writeable' := true;
      if h.val.Struct? {
        data, init' := FlattenStruct(h, h.val.members, data, init', writeable');
      } else {
        var name := ChannelName(h.template);
        data := data + [Record(name, h.id, h.val, h.time)];
        if writeable' {
          init' := init'[name := h.val];
        }
      }
      j := j + 1;
    }
    assert hist[..j] == hist;
  }

  class TelemPipeline {
    var telemHist: seq<HistItem>
    var telemData: seq<Record>
    var telemInitStates: map<string, ChanValue>
    var maxStateCount: nat
    var jsonWriteable: bool
    /** The batches retrieved so far, oldest first. */
    ghost var batches: seq<seq<HistItem>>

    /** `telem_hist` is the latest batch and `max_state_count` the size of the largest one. */
    ghost predicate Valid()
      reads this
    {
      && maxStateCount == MaxSize(batches)
      && telemHist == (if batches == [] then [] else batches[|batches| - 1])
    }

    /** The fields `__init__` sets; connecting to the ground system is not modelled. */
    constructor ()
      ensures Valid() && batches == []
      ensures telemHist == [] && telemData == [] && telemInitStates == map[]
      ensures maxStateCount == 0 && !jsonWriteable
    {
      telemHist, telemData, telemInitStates := [], [], map[];
      maxStateCount, jsonWriteable := 0, false;
      batches := [];
    }

    /** `get_telem_hist`: the batch retrieved last, none before the first retrieval. */
    method GetTelemHist() returns (h: seq<HistItem>)
      requires Valid()
      ensures h == (if batches == [] then [] else batches[|batches| - 1])
      ensures |h| <= maxStateCount
    {
      h := telemHist;
    }

    /**
      `update_telem_hist`, with `batch` the items `retrieve_new()` returned:
      the batch replaces the previous one and the maximum grows to its size
      if that is larger.
     */
    method UpdateTelemHist(batch: seq<HistItem>)
      requires Valid()
      modifies this`telemHist, this`maxStateCount, this`batches
      ensures Valid() && batches == old(batches) + [batch]
      ensures telemHist == batch
      ensures maxStateCount == if |batch| > old(maxStateCount) then |batch| else old(maxStateCount)
      ensures maxStateCount >= old(maxStateCount)
    {
      MaxSizeGrows(batches, batch);
      telemHist := batch;
      if |telemHist| > maxStateCount {
        maxStateCount := |telemHist|;
      }
      batches := batches + [batch];
    }

    /**
      `set_telem_json`: the records of the batch replace the previous ones,
      each record's value is stored in the initial-state table under its
      name, and the table becomes writeable once any item has been seen.
     */
    method SetTelemJson()
      modifies this`telemData, this`telemInitStates, this`jsonWriteable
      ensures telemData == AllRecords(telemHist)
      ensures telemInitStates == SetAll(old(telemInitStates), AllRecords(telemHist))
      ensures jsonWriteable == (old(jsonWriteable) || telemHist != [])
    {
      var hist, init, writeable := telemHist, telemInitStates, jsonWriteable;
      telemData, telemInitStates, jsonWriteable := ProcessHistory(hist, init, writeable);
    }
  }
}
