/**
  The F' telemetry listener's request handler (`updateState`): a POST of
  named entries overwrites the values of the state table's keys with the
  entries' values, entry by entry, skipping an entry whose processing
  throws.
 */
module TelemListener {
  import opened Wrappers
  import opened Json
  import opened ServerState

  /** Whether entry `e` assigns key `k`: it is an object named `k` whose `data` is present. */
  predicate Writes(e: Entry, k: string) {
    e.Entry? && e.name == Some(k) && e.data.Some?
  }

  /**
    The effect of one entry on the table. `null` or `undefined` throws at
    `.name`, and an entry naming a key but carrying no `data` throws at
    `.val`; the handler catches both and leaves the table as it was. A name
    that is no key of the table matches nothing.
   */
  function ApplyEntry(state: map<string, Value>, e: Entry): (r: map<string, Value>)
    ensures r.Keys == state.Keys
    ensures forall k :: k in state ==> r[k] == (if Writes(e, k) then e.data.value.val else state[k])
  {
    if e.Entry? && e.name.Some? && e.name.value in state && e.data.Some? then
      state[e.name.value := e.data.value.val]
    else state
  }

  /** The table after the entries of one request, processed in order. */
  function ApplyEntries(state: map<string, Value>, telem: seq<Entry>): (r: map<string, Value>)
    ensures r.Keys == state.Keys
  {
    if telem == [] then state else ApplyEntry(ApplyEntries(state, telem[..|telem| - 1]), telem[|telem| - 1])
  }

  /** The value of the last entry that assigns `k`, if any. */
  function LastWrite(telem: seq<Entry>, k: string): (r: Option<Value>)
    ensures r.None? <==> forall i :: 0 <= i < |telem| ==> !Writes(telem[i], k)
  {
    if telem == [] then None
    else if Writes(telem[|telem| - 1], k) then Some(telem[|telem| - 1].data.value.val)
    else
      var r := LastWrite(telem[..|telem| - 1], k);
      assert forall i :: 0 <= i < |telem| - 1 ==> telem[..|telem| - 1][i] == telem[i];
      r
  }

  /**
    The last writer wins: after a request, each key holds the value of the
    last entry that assigns it, and keeps its old value when none does; no
    key is added or removed.
   */
  lemma {:induction false} LastWriterWins(state: map<string, Value>, telem: seq<Entry>)
    ensures ApplyEntries(state, telem).Keys == state.Keys
    ensures forall k :: k in state ==>
      ApplyEntries(state, telem)[k] == (match LastWrite(telem, k) case Some(v) => v case None => state[k])
  {
    if telem != [] {
      LastWriterWins(state, telem[..|telem| - 1]);
    }
  }

  /** Two requests one after the other have the effect of one request carrying both lists of entries. */
  lemma {:induction false} ApplyEntriesConcat(state: map<string, Value>, a: seq<Entry>, b: seq<Entry>)
    ensures ApplyEntries(state, a + b) == ApplyEntries(ApplyEntries(state, a), b)
    decreases |b|
  {
    if b == [] {
      assert a + b == a;
    } else {
      assert (a + b)[..|a + b| - 1] == a + b[..|b| - 1];
      ApplyEntriesConcat(state, a, b[..|b| - 1]);
    }
  }

  /**
    An entry that assigns nothing (`null`, no name, a name that is no key,
    or no `data`) is skipped: the entries after it are applied as if it had
    not been sent.
   */
  lemma SkippedEntry(state: map<string, Value>, a: seq<Entry>, e: Entry, b: seq<Entry>)
    requires !(e.Entry? && e.name.Some? && e.name.value in state && e.data.Some?)
    ensures ApplyEntries(state, a + [e] + b) == ApplyEntries(state, a + b)
  {
    ApplyEntriesConcat(state, a + [e], b);
    ApplyEntriesConcat(state, a, [e]);
    ApplyEntriesConcat(state, a, b);
    assert ([] + [e]) == [e];
  }

  /**
    The inner loop of the handler for one entry: every key of the table is
    compared with the entry's name, and a matching key is assigned the
    entry's `data.val`; an exception ends the entry's processing.
   */
  method ProcessEntry(keys: seq<string>, state: map<string, Value>, e: Entry) returns (r: map<string, Value>)
    requires state.Keys == KeySet(keys)
    ensures r == ApplyEntry(state, e)
  {
    r := state;
    if e.Absent? {
      return;
    }
    var j := 0;
    while j < |keys|
      invariant 0 <= j <= |keys|
      invariant r == if e.name.Some? && e.name.value in keys[..j] then ApplyEntry(state, e) else state
      invariant e.name.Some? && e.name.value in keys[..j] ==> e.data.Some?
    {
      if Some(keys[j]) == e.name {
        if e.data.None? {
          return;
        }
        r := r[keys[j] := e.data.value.val];
      }
      assert keys[..j + 1] == keys[..j] + [keys[j]];
      j := j + 1;
    }
    assert keys[..j] == keys;
  }

  /** The outer loop of the handler: the entries in order, each through `ProcessEntry`. */
  method ProcessRequest(keys: seq<string>, state: map<string, Value>, telem: seq<Entry>) returns (r: map<string, Value>)
    requires state.Keys == KeySet(keys)
    ensures r == ApplyEntries(state, telem)
  {
    r := state;
    var i := 0;
    while i < |telem|
      invariant 0 <= i <= |telem|
      invariant r == ApplyEntries(state, telem[..i])
    {
      assert telem[..i + 1][..i] == telem[..i];
      r := ProcessEntry(keys, r, telem[i]);
      i := i + 1;
    }
    assert telem[..i] == telem;
  }

  /** `FPrimeTelemListener`: the shared telemetry server, fed by POSTs to `/fprime_telem`. */
  class FPrimeTelemListener {
    const server: TelemetryServer

    /** The server over the parsed `initial_states.json`, with both counters set to 0. */
    constructor (initialKeys: seq<string>, initial: map<string, Value>)
      requires DistinctKeys(initialKeys) && forall k :: k in initial <==> k in initialKeys
      ensures fresh(server) && server.Valid()
      ensures server.keys == InitialKeys(initialKeys, initial)
      ensures server.state == initial[CommsRecd := Num(0)][CommsSent := Num(0)]
      ensures server.listeners == [] && server.deliveries == []
    {
      server := new TelemetryServer(initialKeys, initial);
    }

    /**
      One POST to `/fprime_telem` carrying `telem`: `None` when the body's
      `telem` is missing, `undefined` or `null`. A `telem` that is some other
      non-array value (a number or a plain object, whose `length` is
      `undefined`, so the loop is skipped and `done` is sent) is not
      represented. Without one, `.length` throws outside the `try`
      before `done` is sent (Express answers with its default error
      response instead) and the table is untouched; otherwise each entry
      is applied in turn and the handler sends `done`.
     */
    method UpdateState(telem: Option<seq<Entry>>) returns (sentDone: bool)
      requires server.Valid()
      modifies server`state
      ensures server.Valid()
      ensures sentDone <==> telem.Some?
      ensures server.state == if telem.Some? then ApplyEntries(old(server.state), telem.value) else old(server.state)
    {
      if telem.None? {
        return false;
      }
      var keys, state := server.keys, server.state;
      var r := ProcessRequest(keys, state, telem.value);
      server.state := r;
      sentDone := true;
    }
  }
}
