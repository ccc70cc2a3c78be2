/**
  The stand-alone telemetry poller script's pipeline (`TelemPipeline` of
  `fprime_scripts`): each history item becomes exactly one record named
  `comp_name.name`, struct values included as they are, and only the very
  first record ever processed is copied into the initial-state table.
 */
module ScriptTelemPoller {
  import opened Json
  import opened Gds

  /** The record of one item: its channel's name and the item's id, value and time. */
  function ItemRecord(h: HistItem): Record {
    Record(ChannelName(h.template), h.id, h.val, h.time)
  }

  /** The records of a batch, in item order. */
  function Records(hist: seq<HistItem>): (r: seq<Record>)
    ensures |r| == |hist|
  {
    if hist == [] then [] else Records(hist[..|hist| - 1]) + [ItemRecord(hist[|hist| - 1])]
  }

  /** Record `i` is item `i`'s: named after its channel, with the item's id, value and time. */
  lemma {:induction false} RecordsPerItem(hist: seq<HistItem>)
    ensures forall i :: 0 <= i < |hist| ==>
      && Records(hist)[i].name == ChannelName(hist[i].template)
      && Records(hist)[i].id == hist[i].id && Records(hist)[i].val == hist[i].val && Records(hist)[i].time == hist[i].time
  {
    RecordsAre(hist);
  }

  lemma {:induction false} RecordsAre(hist: seq<HistItem>)
    ensures forall i :: 0 <= i < |hist| ==> Records(hist)[i] == ItemRecord(hist[i])
  {
    if hist != [] {
      var init := hist[..|hist| - 1];
      RecordsAre(init);
      assert Records(hist) == Records(init) + [ItemRecord(hist[|init|])];
      forall i | 0 <= i < |init|
        ensures Records(hist)[i] == ItemRecord(hist[i])
      {
        assert hist[i] == init[i];
      }
    }
  }

  /**
    The initial-state table and the writeable flag after a batch: the first
    item of the batch is stored when nothing was stored before, and the
    flag is set with it; otherwise both stay as they were.
   */
  function FirstState(init: map<string, ChanValue>, writeable: bool, hist: seq<HistItem>): (map<string, ChanValue>, bool) {
    if !writeable && hist != [] then (init[ChannelName(hist[0].template) := hist[0].val], true) else (init, writeable)
  }

  /**
    The table holds exactly the first record ever processed, and the flag
    says whether there was one.
   */
  predicate FirstOnly(processed: seq<Record>, init: map<string, ChanValue>, writeable: bool) {
    if processed == [] then !writeable && init == map[]
    else writeable && init == map[processed[0].name := processed[0].val]
  }

  /** Every batch keeps the table at the first record ever processed, and a set flag stays set. */
  lemma FirstStateKeepsFirst(processed: seq<Record>, init: map<string, ChanValue>, writeable: bool, hist: seq<HistItem>)
    requires FirstOnly(processed, init, writeable)
    ensures FirstOnly(processed + Records(hist), FirstState(init, writeable, hist).0, FirstState(init, writeable, hist).1)
    ensures writeable ==> FirstState(init, writeable, hist).1
  {
    if processed == [] && hist != [] {
      RecordsPerItem(hist);
      assert (processed + Records(hist))[0] == Records(hist)[0];
    } else if processed != [] {
      assert (processed + Records(hist))[0] == processed[0];
    } else {
      assert processed + Records(hist) == [];
    }
  }

  /** The loop of `set_telem_json` over the batch, from an empty record list. */
  method ProcessHistory(hist: seq<HistItem>, init: map<string, ChanValue>, writeable: bool)
    returns (data: seq<Record>, init': map<string, ChanValue>, writeable': bool)
    ensures data == Records(hist)
    ensures (init', writeable') == FirstState(init, writeable, hist)
  {
    data, init', writeable' := [], init, writeable;
    var j := 0;
    while j < |hist|
      invariant 0 <= j <= |hist|
      invariant data == Records(hist[..j])
      invariant (init', writeable') == FirstState(init, writeable, hist[..j])
    {
      var h := hist[j];
      assert hist[..j + 1][..j] == hist[..j];
      var name := ChannelName(h.template);
      var rec := Record(name, h.id, h.val, h.time);
      if !writeable' {
        init' := init'[name := h.val];
        writeable' := true;
      }
      data := data + [rec];
      j := j + 1;
    }
    assert hist[..j] == hist;
  }

  class TelemPipeline {
    var telemHist: seq<HistItem>
    var telemData: seq<Record>
    var telemInitStates: map<string, ChanValue>
    var maxStateCount: nat
    var jsonWriteable: bool
    /** The batches retrieved so far, oldest first. */
    ghost var batches: seq<seq<HistItem>>
    /** Every record produced so far, oldest first. */
    ghost var processed: seq<Record>

    /**
      `telem_hist` is the latest batch, `max_state_count` the size of the
      largest, and the initial-state table holds the first record ever
      processed and nothing else.
     */
    ghost predicate Valid()
      reads this
    {
      && maxStateCount == MaxSize(batches)
      && telemHist == (if batches == [] then [] else batches[|batches| - 1])
      && FirstOnly(processed, telemInitStates, jsonWriteable)
    }

    /** The fields `__init__` sets; connecting to the ground system is not modelled. */
    constructor ()
      ensures Valid() && batches == [] && processed == []
      ensures telemHist == [] && telemData == [] && telemInitStates == map[]
      ensures maxStateCount == 0 && !jsonWriteable
    {
      telemHist, telemData, telemInitStates := [], [], map[];
      maxStateCount, jsonWriteable := 0, false;
      batches, processed := [], [];
    }

    /** `get_telem_hist`: the batch retrieved last, none before the first retrieval. */
    method GetTelemHist() returns (h: seq<HistItem>)
      requires Valid()
      ensures h == (if batches == [] then [] else batches[|batches| - 1])
      ensures |h| <= maxStateCount
    {
      h := telemHist;
    }

    /**
      `update_telem_hist`, with `batch` the items `retrieve_new()` returned:
      the batch replaces the previous one and the maximum grows to its size
      if that is larger.
     */
    method UpdateTelemHist(batch: seq<HistItem>)
      requires Valid()
      modifies this`telemHist, this`maxStateCount, this`batches
      ensures Valid() && batches == old(batches) + [batch]
      ensures telemHist == batch
      ensures maxStateCount == if |batch| > old(maxStateCount) then |batch| else old(maxStateCount)
      ensures maxStateCount >= old(maxStateCount)
    {
      MaxSizeGrows(batches, batch);
      telemHist := batch;
      if |telemHist| > maxStateCount {
        maxStateCount := |telemHist|;
      }
      batches := batches + [batch];
    }

    /**
      `set_telem_json`: one record per item replaces the previous records;
      the initial-state table and the writeable flag change only on the
      first item ever seen.
     */
    method SetTelemJson()
      requires Valid()
      modifies this`telemData, this`telemInitStates, this`jsonWriteable, this`processed
      ensures Valid() && processed == old(processed) + telemData
      ensures telemData == Records(telemHist)
      ensures (telemInitStates, jsonWriteable) == FirstState(old(telemInitStates), old(jsonWriteable), telemHist)
      ensures old(jsonWriteable) ==> jsonWriteable
    {
      var hist, init, writeable := telemHist, telemInitStates, jsonWriteable;
      FirstStateKeepsFirst(processed, init, writeable, hist);
      var data, init', writeable' := ProcessHistory(hist, init, writeable);
      telemData, telemInitStates, jsonWriteable, processed := data, init', writeable', processed + data;
    }
  }
}
