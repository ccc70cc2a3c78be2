/**
  The example helicopter server's request handler (`Heli.updateState`):
  the `i`-th key of the state table is compared with the name of the
  `i`-th posted entry only. An exception is not caught: it ends the
  handler before it sends `done` (Express then answers with its default
  error response), and the assignments made before it stay.
 */
module Heli {
  import opened Wrappers
  import opened Json
  import opened ServerState

  /**
    Whether handling position `i` throws: there is no `i`-th entry, it is
    `null`, or it names the `i`-th key but carries no `data`.
   */
  predicate Fails(keys: seq<string>, telem: seq<Entry>, i: nat)
    requires i < |keys|
  {
    i >= |telem| || telem[i].Absent? || (telem[i].name == Some(keys[i]) && telem[i].data.None?)
  }

  /** The first `n` positions are handled without an exception. */
  predicate Completes(keys: seq<string>, telem: seq<Entry>, n: nat)
    requires n <= |keys|
  {
    forall i :: 0 <= i < n ==> !Fails(keys, telem, i)
  }

  /** The value position `j` assigns to the `j`-th key, if it names that key and carries `data`. */
  function Assigned(keys: seq<string>, telem: seq<Entry>, j: nat): (r: Option<Value>)
    requires j < |keys|
    ensures r.Some? ==> !Fails(keys, telem, j)
  {
    if j < |telem| && telem[j].Entry? && telem[j].name == Some(keys[j]) && telem[j].data.Some? then
      Some(telem[j].data.value.val)
    else None
  }

  /**
    The table after the first `n` keys of the loop, and whether they were
    handled without an exception; after one, nothing further changes.
   */
  function Positional(keys: seq<string>, state: map<string, Value>, telem: seq<Entry>, n: nat): (r: (map<string, Value>, bool))
    requires n <= |keys|
  {
    if n == 0 then (state, true)
    else
      var (s, ok) := Positional(keys, state, telem, n - 1);
      var i := n - 1;
      if !ok then (s, false)
      else if Fails(keys, telem, i) then (s, false)
      else if telem[i].name == Some(keys[i]) then (s[keys[i] := telem[i].data.value.val], true)
      else (s, true)
  }

  /** Once an exception has ended the handler, the later keys change nothing. */
  lemma {:induction false} FailureStops(keys: seq<string>, state: map<string, Value>, telem: seq<Entry>, i: nat, n: nat)
    requires i <= n <= |keys| && !Positional(keys, state, telem, i).1
    ensures Positional(keys, state, telem, n) == Positional(keys, state, telem, i)
    decreases n
  {
    if n > i {
      FailureStops(keys, state, telem, i, n - 1);
    }
  }

  /**
    What a request does, position by position: the handler sends `done` exactly
    when no position throws; the `j`-th key takes the `j`-th entry's value
    when that entry names it and no position up to `j` throws, and keeps
    its value otherwise; no key is added or removed.
   */
  lemma {:induction false} PositionalEffect(keys: seq<string>, state: map<string, Value>, telem: seq<Entry>, n: nat)
    requires n <= |keys| && DistinctKeys(keys) && state.Keys == KeySet(keys)
    ensures Positional(keys, state, telem, n).1 <==> Completes(keys, telem, n)
    ensures Positional(keys, state, telem, n).0.Keys == state.Keys
    ensures forall j :: 0 <= j < |keys| ==>
      Positional(keys, state, telem, n).0[keys[j]] ==
        if j < n && Completes(keys, telem, j + 1) && Assigned(keys, telem, j).Some? then Assigned(keys, telem, j).value
        else state[keys[j]]
  {
    if n > 0 {
      var i := n - 1;
      PositionalEffect(keys, state, telem, i);
      var prior := Positional(keys, state, telem, i).0;
      forall j | 0 <= j < |keys| && j != i
        ensures Positional(keys, state, telem, n).0[keys[j]] == prior[keys[j]]
      {
        if j < i { DistinctKeysAt(keys, j, i); } else { DistinctKeysAt(keys, i, j); }
      }
      if Completes(keys, telem, i) && !Fails(keys, telem, i) {
        assert Completes(keys, telem, n);
      }
    }
  }

  /** The loop of the handler over the table's keys, ended early by an exception. */
  method UpdateByPosition(keys: seq<string>, state: map<string, Value>, telem: seq<Entry>) returns (r: map<string, Value>, ok: bool)
    ensures (r, ok) == Positional(keys, state, telem, |keys|)
  {
    r, ok := state, true;
    var i := 0;
    while i < |keys|
      invariant 0 <= i <= |keys|
      invariant ok && (r, ok) == Positional(keys, state, telem, i)
    {
      var key := keys[i];
      if i >= |telem| || telem[i].Absent? {
        FailureStops(keys, state, telem, i + 1, |keys|);
        return r, false;
      }
      if telem[i].name == Some(key) {
        if telem[i].data.None? {
          FailureStops(keys, state, telem, i + 1, |keys|);
          return r, false;
        }
        r := r[key := telem[i].data.value.val];
      }
      i := i + 1;
    }
  }

  /** `Heli`: the shared telemetry server, fed by POSTs to `/helitelem`. */
  class Heli {
    const server: TelemetryServer

    /** The server over the parsed `data.json`, with both counters set to 0. */
    constructor (initialKeys: seq<string>, initial: map<string, Value>)
      requires DistinctKeys(initialKeys) && forall k :: k in initial <==> k in initialKeys
      ensures fresh(server) && server.Valid()
      ensures server.keys == InitialKeys(initialKeys, initial)
      ensures server.state == initial[CommsRecd := Num(0)][CommsSent := Num(0)]
      ensures server.listeners == [] && server.deliveries == []
    {
      server := new TelemetryServer(initialKeys, initial);
    }

    /**
      One POST to `/helitelem` carrying `telem` (`None` when the body has no
      `telem` array, which throws at the first key just as an empty one
      does). The handler sends `done` only when no key's position throws.
     */
    method UpdateState(telem: Option<seq<Entry>>) returns (sentDone: bool)
      requires server.Valid()
      modifies server`state
      ensures server.Valid()
      ensures (server.state, sentDone) ==
        Positional(server.keys, old(server.state), if telem.Some? then telem.value else [], |server.keys|)
    {
      var keys, state := server.keys, server.state;
      var entries := if telem.Some? then telem.value else [];
      var r;
      r, sentDone := UpdateByPosition(keys, state, entries);
      PositionalEffect(keys, state, entries, |keys|);
      server.state := r;
    }
  }
}
