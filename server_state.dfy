/**
  The telemetry server objects the two example servers share
  (`FPrimeTelemListener` and `Heli` have the same constructor,
  `generateTelemetry`, `notify` and `listen`): a name-to-value state table
  read from a JSON file, a history of points per name, and a list of
  subscribed listeners. Listeners are identified by number; what a listener
  is called with is recorded as a delivery.
 */
module ServerState {
  import opened Wrappers
  import opened Json

  /** The `data` member of a posted entry; a missing `val` reads as `Undefined`. */
  datatype Payload = Payload(val: Value)

  /**
    One element `telem[i]` of a posted request. `Absent` is `null` or
    `undefined`, whose `.name` throws; an object's `name` is `None` when
    missing, and its `data` is `None` when missing or `null` (then `.val`
    throws).
   */
  datatype Entry = Absent | Entry(name: Option<string>, data: Option<Payload>)

  /** `state[k]`: a missing key reads as `undefined`. */
  function Lookup(state: map<string, Value>, k: string): (v: Value)
    ensures k in state ==> v == state[k]
    ensures k !in state ==> v == Undefined
  {
    if k in state then state[k] else Undefined
  }

  /** A call `l(point)` of listener `listener`. */
  datatype Delivery = Delivery(listener: nat, point: Point)

  const CommsRecd: string := "comms.recd"
  const CommsSent: string := "comms.sent"

  /** No key occurs twice: each is new to the keys before it. */
  predicate DistinctKeys(keys: seq<string>)
    decreases |keys|
  {
    keys == [] || (keys[|keys| - 1] !in keys[..|keys| - 1] && DistinctKeys(keys[..|keys| - 1]))
  }

  /** The two readings of distinctness agree. */
  lemma {:induction false} DistinctKeysAt(keys: seq<string>, i: nat, j: nat)
    requires DistinctKeys(keys) && i < j < |keys|
    ensures keys[i] != keys[j]
    decreases |keys|
  {
    var n := |keys| - 1;
    if j == n {
      assert keys[..n][i] == keys[i];
    } else {
      DistinctKeysAt(keys[..n], i, j);
    }
  }

  /** `listeners.forEach(l => l(point))`: each listener once, in order. */
  function Broadcast(listeners: seq<nat>, p: Point): (r: seq<Delivery>)
    ensures |r| == |listeners|
    ensures forall i :: 0 <= i < |r| ==> r[i] == Delivery(listeners[i], p)
  {
    seq(|listeners|, i requires 0 <= i < |listeners| => Delivery(listeners[i], p))
  }

  /** The deliveries of a sequence of points, point by point. */
  function BroadcastAll(listeners: seq<nat>, ps: seq<Point>): seq<Delivery> {
    if ps == [] then [] else BroadcastAll(listeners, ps[..|ps| - 1]) + Broadcast(listeners, ps[|ps| - 1])
  }

  /** `listeners.filter(x => x !== l)`. */
  function Without(listeners: seq<nat>, l: nat): (r: seq<nat>)
    ensures forall x :: x in r <==> x in listeners && x != l
    ensures |r| <= |listeners|
  {
    if listeners == [] then []
    else (if listeners[0] == l then [] else [listeners[0]]) + Without(listeners[1..], l)
  }

  /** Filtering distributes over concatenation, so the listeners kept stay in their order. */
  lemma {:induction false} WithoutConcat(a: seq<nat>, b: seq<nat>, l: nat)
    ensures Without(a + b, l) == Without(a, l) + Without(b, l)
  {
    if a == [] {
      assert a + b == b;
    } else {
      assert (a + b)[0] == a[0];
      assert (a + b)[1..] == a[1..] + b;
      WithoutConcat(a[1..], b, l);
    }
  }

  /** After unsubscribing, a listener is called with nothing, however many times it had subscribed. */
  lemma UnlistenedHearNothing(listeners: seq<nat>, l: nat, p: Point)
    ensures forall d :: d in Broadcast(Without(listeners, l), p) ==> d.listener != l
  {
    var kept := Without(listeners, l);
    forall d | d in Broadcast(kept, p)
      ensures d.listener != l
    {
      var i :| 0 <= i < |kept| && Broadcast(kept, p)[i] == d;
      assert kept[i] in kept;
    }
  }

  /**
    The first `n` rounds of `generateTelemetry` over the keys `ids` of the
    table `state`: each key yields one point with its current value, and
    `comms.sent` grows by the length of each point's JSON text as it is
    emitted. The result is the points and the value of `comms.sent` then,
    the only entry of the table that changes.
   */
  function Generate(ids: seq<string>, n: nat, state: map<string, Value>, timestamp: int, size: Point -> nat): (r: (seq<Point>, Value))
    requires n <= |ids|
    ensures |r.0| == n
  {
    if n == 0 then ([], Lookup(state, CommsSent))
    else
      var prior := Generate(ids, n - 1, state, timestamp, size);
      var id := ids[n - 1];
      var p := Point(timestamp, if id == CommsSent then prior.1 else Lookup(state, id), id);
      (prior.0 + [p], JsAdd(prior.1, size(p)))
  }

  /** The total length of the JSON texts of some points. */
  function TotalSize(ps: seq<Point>, size: Point -> nat): nat {
    if ps == [] then 0 else TotalSize(ps[..|ps| - 1], size) + size(ps[|ps| - 1])
  }

  /**
    Every key yields exactly one point, in key order, all stamped with the
    same timestamp; a key other than `comms.sent` reports its value from
    before the call.
   */
  lemma {:induction false} GeneratePoints(ids: seq<string>, n: nat, state: map<string, Value>, timestamp: int, size: Point -> nat)
    requires n <= |ids|
    ensures var ps := Generate(ids, n, state, timestamp, size).0;
      && (forall j :: 0 <= j < n ==> ps[j].id == ids[j] && ps[j].timestamp == timestamp)
      && (forall j :: 0 <= j < n && ids[j] != CommsSent ==> ps[j].value == Lookup(state, ids[j]))
  {
    if n > 0 {
      GeneratePoints(ids, n - 1, state, timestamp, size);
      var prior := Generate(ids, n - 1, state, timestamp, size).0;
      var ps := Generate(ids, n, state, timestamp, size).0;
      assert ps == prior + [ps[n - 1]];
      assert ps[n - 1].id == ids[n - 1] && ps[n - 1].timestamp == timestamp;
      forall j | 0 <= j < n - 1
        ensures ps[j] == prior[j]
      {
      }
    }
  }

  /**
    `comms.sent`, when it holds a number, grows by exactly the total length
    of the JSON texts of the points emitted in the call.
   */
  lemma {:induction false} GenerateCountsSent(ids: seq<string>, n: nat, state: map<string, Value>, timestamp: int, size: Point -> nat)
    requires n <= |ids| && CommsSent in state && state[CommsSent].Num?
    ensures var (ps, sent) := Generate(ids, n, state, timestamp, size);
      sent == Num(state[CommsSent].n + TotalSize(ps, size))
  {
    if n > 0 {
      GenerateCountsSent(ids, n - 1, state, timestamp, size);
      var prior := Generate(ids, n - 1, state, timestamp, size);
      var ps := Generate(ids, n, state, timestamp, size).0;
      assert ps[..|ps| - 1] == prior.0;
    }
  }

  lemma BroadcastAllStep(listeners: seq<nat>, ps: seq<Point>, p: Point)
    ensures BroadcastAll(listeners, ps + [p]) == BroadcastAll(listeners, ps) + Broadcast(listeners, p)
  {
    assert (ps + [p])[..|ps|] == ps;
  }

  /** `history[ids[j]].push(ps[j])` for each point `ps[j]`, in order. */
  function Record(history: map<string, seq<Point>>, ids: seq<string>, ps: seq<Point>): (r: map<string, seq<Point>>)
    requires |ps| <= |ids| && forall k :: k in ids ==> k in history
    ensures r.Keys == history.Keys
  {
    if ps == [] then history
    else
      var prior := Record(history, ids, ps[..|ps| - 1]);
      var id := ids[|ps| - 1];
      prior[id := prior[id] + [ps[|ps| - 1]]]
  }

  /**
    With distinct keys, each key's history gains exactly its own point, and
    a key that emitted nothing keeps its history.
   */
  lemma {:induction false} RecordAppends(history: map<string, seq<Point>>, ids: seq<string>, ps: seq<Point>)
    requires |ps| <= |ids| && forall k :: k in ids ==> k in history
    requires DistinctKeys(ids)
    ensures forall j :: 0 <= j < |ps| ==> Record(history, ids, ps)[ids[j]] == history[ids[j]] + [ps[j]]
    ensures forall j :: |ps| <= j < |ids| ==> Record(history, ids, ps)[ids[j]] == history[ids[j]]
    ensures forall k :: k in history && k !in ids ==> Record(history, ids, ps)[k] == history[k]
  {
    if ps != [] {
      var n := |ps| - 1;
      RecordAppends(history, ids, ps[..n]);
      forall j | 0 <= j < |ids| && j != n
        ensures Record(history, ids, ps)[ids[j]] == Record(history, ids, ps[..n])[ids[j]]
      {
        if j < n { DistinctKeysAt(ids, j, n); } else { DistinctKeysAt(ids, n, j); }
      }
    }
  }

  lemma RecordStep(history: map<string, seq<Point>>, ids: seq<string>, ps: seq<Point>, p: Point)
    requires |ps| < |ids| && forall k :: k in ids ==> k in history
    ensures var prior := Record(history, ids, ps);
      Record(history, ids, ps + [p]) == prior[ids[|ps|] := prior[ids[|ps|]] + [p]]
  {
    assert (ps + [p])[..|ps|] == ps;
  }

  /** The names in a key list. */
  function KeySet(keys: seq<string>): (r: set<string>)
    ensures forall k :: k in r <==> k in keys
  {
    set k | k in keys
  }

  /** The initial keys, with `comms.recd` and then `comms.sent` appended when absent. */
  function InitialKeys(initialKeys: seq<string>, initial: map<string, Value>): (r: seq<string>)
    ensures |initialKeys| <= |r| <= |initialKeys| + 2 && r[..|initialKeys|] == initialKeys
  {
    initialKeys + (if CommsRecd in initial then [] else [CommsRecd])
                + (if CommsSent in initial then [] else [CommsSent])
  }

  /** With the table's keys listed once each, the extended list keeps them distinct and names exactly the keys of the counted table. */
  lemma InitialKeysValid(initialKeys: seq<string>, initial: map<string, Value>)
    requires DistinctKeys(initialKeys) && forall k :: k in initial <==> k in initialKeys
    ensures DistinctKeys(InitialKeys(initialKeys, initial))
    ensures KeySet(InitialKeys(initialKeys, initial)) == initial[CommsRecd := Num(0)][CommsSent := Num(0)].Keys
  {
    var withRecd := initialKeys + (if CommsRecd in initial then [] else [CommsRecd]);
    if CommsRecd !in initial {
      DistinctSnoc(initialKeys, CommsRecd);
    }
    assert InitialKeys(initialKeys, initial) == withRecd + (if CommsSent in initial then [] else [CommsSent]);
    if CommsSent !in initial {
      DistinctSnoc(withRecd, CommsSent);
    }
  }

  lemma DistinctSnoc(keys: seq<string>, k: string)
    requires DistinctKeys(keys) && k !in keys
    ensures DistinctKeys(keys + [k])
  {
    assert (keys + [k])[..|keys|] == keys;
  }

  /**
    The first lines of the constructor: `comms.recd` and then `comms.sent`
    are set to 0, each appended to the keys when it is new.
   */
  method InitialTable(initialKeys: seq<string>, initial: map<string, Value>)
    returns (ks: seq<string>, st: map<string, Value>)
    requires DistinctKeys(initialKeys) && forall k :: k in initial <==> k in initialKeys
    ensures ks == InitialKeys(initialKeys, initial)
    ensures st == initial[CommsRecd := Num(0)][CommsSent := Num(0)]
    ensures DistinctKeys(ks) && st.Keys == KeySet(ks)
    ensures CommsRecd in st && CommsSent in st
  {
    InitialKeysValid(initialKeys, initial);
    ks, st := initialKeys, initial;
    if CommsRecd !in st {
      ks := ks + [CommsRecd];
    }
    st := st[CommsRecd := Num(0)];
    if CommsSent !in st {
      ks := ks + [CommsSent];
    }
    st := st[CommsSent := Num(0)];
  }

  /** An empty history for each key. */
  function EmptyHistory(keys: seq<string>): (r: map<string, seq<Point>>)
    ensures r.Keys == KeySet(keys)
    ensures forall k :: k in r ==> r[k] == []
  {
    map k | k in keys :: []
  }

  class TelemetryServer {
    /** The keys of `this.state`, in insertion order. */
    var keys: seq<string>
    var state: map<string, Value>
    var history: map<string, seq<Point>>
    var listeners: seq<nat>
    /** Every listener call made so far, oldest first. */
    var deliveries: seq<Delivery>

    /** The table's keys are fixed at construction: every key has a value and a history, and both counters exist. */
    ghost predicate Valid()
      reads this
    {
      && DistinctKeys(keys)
      && state.Keys == KeySet(keys)
      && history.Keys == state.Keys
      && CommsRecd in state && CommsSent in state
    }

    /**
      The constructor: the parsed initial state, with `comms.recd` and
      `comms.sent` set to 0 (appended last when absent), and an empty history
      for every key.
     */
    constructor (initialKeys: seq<string>, initial: map<string, Value>)
      requires DistinctKeys(initialKeys) && forall k :: k in initial <==> k in initialKeys
      ensures Valid()
      ensures keys == InitialKeys(initialKeys, initial)
      ensures state == initial[CommsRecd := Num(0)][CommsSent := Num(0)]
      ensures forall k :: k in history ==> history[k] == []
      ensures listeners == [] && deliveries == []
    {
      var ks, st := InitialTable(initialKeys, initial);
      var h := EmptyHistory(ks);
      keys, state, history, listeners, deliveries := ks, st, h, [], [];
    }

    /** `notify`: every listener is called with the point once, in order. */
    method Notify(p: Point)
      modifies this`deliveries
      ensures deliveries == old(deliveries) + Broadcast(listeners, p)
    {
      deliveries := Deliver(listeners, deliveries, p);
    }

    /** `listen`: the listener is appended to the list. */
    method Listen(l: nat)
      modifies this`listeners
      ensures listeners == old(listeners) + [l]
    {
      listeners := listeners + [l];
    }

    /** The function `listen` returns: every registration of `l` is removed, the others keep their order. */
    method Unlisten(l: nat)
      modifies this`listeners
      ensures listeners == Without(old(listeners), l)
    {
      listeners := Without(listeners, l);
    }

    /**
      `generateTelemetry` at `timestamp`: for each key in insertion order, one
      point is emitted to the listeners and appended to that key's history,
      and `comms.sent` grows by its serialised length.
     */
    method GenerateTelemetry(timestamp: int) returns (emitted: seq<Point>)
      requires Valid()
      modifies this`state, this`history, this`deliveries
      ensures Valid()
      ensures emitted == Generate(keys, |keys|, old(state), timestamp, Size).0
      ensures state == old(state)[CommsSent := Generate(keys, |keys|, old(state), timestamp, Size).1]
      ensures history == Record(old(history), keys, emitted)
      ensures deliveries == old(deliveries) + BroadcastAll(listeners, emitted)
    {
      var ks, st := keys, state;
      emitted, state, history, deliveries := GenerateRound(ks, st, history, listeners, deliveries, timestamp, Size);
    }
  }

  /** `notify` on the list of deliveries so far: the listeners' calls, in order. */
  method Deliver(listeners: seq<nat>, deliveries: seq<Delivery>, p: Point) returns (r: seq<Delivery>)
    ensures r == deliveries + Broadcast(listeners, p)
  {
    r := deliveries;
    var i := 0;
    while i < |listeners|
      invariant 0 <= i <= |listeners|
      invariant r == deliveries + Broadcast(listeners[..i], p)
    {
      assert Broadcast(listeners[..i + 1], p) == Broadcast(listeners[..i], p) + [Delivery(listeners[i], p)];
      r := r + [Delivery(listeners[i], p)];
      i := i + 1;
    }
    assert listeners[..i] == listeners;
  }

  /**
    The state of `generateTelemetry`'s loop after the first `i` keys: their
    points were emitted, delivered and recorded, and `comms.sent` holds `sent`.
   */
  ghost predicate RoundAfter(keys: seq<string>, i: nat, state: map<string, Value>, history: map<string, seq<Point>>,
                             listeners: seq<nat>, deliveries: seq<Delivery>, timestamp: int, size: Point -> nat,
                             emitted: seq<Point>, sent: Value, state': map<string, Value>,
                             history': map<string, seq<Point>>, deliveries': seq<Delivery>)
  {
    && i <= |keys| && (forall k :: k in keys ==> k in history)
    && (emitted, sent) == Generate(keys, i, state, timestamp, size)
    && state' == state[CommsSent := sent]
    && history' == Record(history, keys, emitted)
    && deliveries' == deliveries + BroadcastAll(listeners, emitted)
  }

  lemma RoundStep(keys: seq<string>, i: nat, state: map<string, Value>, history: map<string, seq<Point>>,
                  listeners: seq<nat>, deliveries: seq<Delivery>, timestamp: int, size: Point -> nat,
                  emitted: seq<Point>, sent: Value, state': map<string, Value>,
                  history': map<string, seq<Point>>, deliveries': seq<Delivery>)
    requires i < |keys| && CommsSent in state
    requires RoundAfter(keys, i, state, history, listeners, deliveries, timestamp, size,
                        emitted, sent, state', history', deliveries')
    ensures keys[i] in history' && CommsSent in state'
    ensures var p := Point(timestamp, Lookup(state', keys[i]), keys[i]);
      RoundAfter(keys, i + 1, state, history, listeners, deliveries, timestamp, size,
                 emitted + [p], JsAdd(sent, size(p)), state'[CommsSent := JsAdd(state'[CommsSent], size(p))],
                 history'[keys[i] := history'[keys[i]] + [p]], deliveries' + Broadcast(listeners, p))
  {
    var p := Point(timestamp, Lookup(state', keys[i]), keys[i]);
    assert Lookup(state', keys[i]) == if keys[i] == CommsSent then sent else Lookup(state, keys[i]);
    SentStep(state, state', sent, size(p));
    RecordStep(history, keys, emitted, p);
    BroadcastAllStep(listeners, emitted, p);
    AppendAssoc(deliveries, BroadcastAll(listeners, emitted), Broadcast(listeners, p));
  }

  lemma AppendAssoc(a: seq<Delivery>, b: seq<Delivery>, c: seq<Delivery>)
    ensures (a + b) + c == a + (b + c)
  {
  }

  lemma SentStep(state: map<string, Value>, state': map<string, Value>, sent: Value, n: nat)
    requires state' == state[CommsSent := sent]
    ensures state'[CommsSent := JsAdd(state'[CommsSent], n)] == state[CommsSent := JsAdd(sent, n)]
  {
  }

  /**
    The loop of `generateTelemetry` on the server's fields: each key's point
    is delivered, appended to its history, and counted into `comms.sent`.
   */
  method GenerateRound(keys: seq<string>, state: map<string, Value>, history: map<string, seq<Point>>,
                       listeners: seq<nat>, deliveries: seq<Delivery>, timestamp: int, size: Point -> nat)
    returns (emitted: seq<Point>, state': map<string, Value>, history': map<string, seq<Point>>,
             deliveries': seq<Delivery>)
    requires CommsSent in state && forall k :: k in keys ==> k in history
    ensures emitted == Generate(keys, |keys|, state, timestamp, size).0
    ensures state' == state[CommsSent := Generate(keys, |keys|, state, timestamp, size).1]
    ensures history' == Record(history, keys, emitted)
    ensures deliveries' == deliveries + BroadcastAll(listeners, emitted)
  {
    emitted, state', history', deliveries' := [], state, history, deliveries;
    ghost var sent := state[CommsSent];
    var i := 0;
    while i < |keys|
      invariant RoundAfter(keys, i, state, history, listeners, deliveries, timestamp, size,
                           emitted, sent, state', history', deliveries')
    {
      var id := keys[i];
      var p := Point(timestamp, Lookup(state', id), id);
      RoundStep(keys, i, state, history, listeners, deliveries, timestamp, size,
                emitted, sent, state', history', deliveries');
      deliveries' := Deliver(listeners, deliveries', p);
      history' := history'[id := history'[id] + [p]];
      state' := state'[CommsSent := JsAdd(state'[CommsSent], size(p))];
      sent := JsAdd(sent, size(p));
      emitted := emitted + [p];
      i := i + 1;
    }
  }
}
