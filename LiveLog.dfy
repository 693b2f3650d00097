/** The live-log supervisor: a user-armed connection to the backend's live feed, the
    newest-first window of recent records, the per-message pipeline and the alert with
    its auto-clear timers.

    The browser's WebSocket is abstract: every socket the supervisor ever created is
    an index into `sockets`, which records its ready state, and the transport events
    are methods taking that index. Their preconditions are the ready-state guarantees
    of the WebSocket standard: an open event only while connecting and a message only
    while open; close and error may arrive in any state, since the browser marks the
    socket closed before it fires them. Time is the
    `clock` field, moved forward by `Tick`, which fires the alert timers that are due. */
module LiveLog {
  import opened Wrappers
  import opened Text
  import opened Lists
  import opened Logs
  import opened Stats

  /** The window holds at most this many records. */
  const WindowCap: nat := 50

  /** An alert is cleared this many milliseconds after it was raised. */
  const AlertMillis: int := 5000

  datatype ReadyState = Connecting | Open | Closing | Closed

  /** A socket that can still deliver an open or a message event. */
  predicate Live(s: ReadyState)
  {
    s == Connecting || s == Open
  }

  /** The ready state after `close()`: a live socket starts its closing handshake, a
      closing or closed one is left alone. */
  function CloseRequested(s: ReadyState): (r: ReadyState)
    ensures !Live(r)
    ensures Live(s) ==> r == Closing
    ensures !Live(s) ==> r == s
  {
    if Live(s) then Closing else s
  }

  /** Calling `close()` a second time changes nothing. */
  lemma {:induction false} CloseIdempotent(s: ReadyState)
    ensures CloseRequested(CloseRequested(s)) == CloseRequested(s)
  {
  }

  /** `if (wsRef.current) wsRef.current.close()`: the socket `c` names starts closing;
      every other socket is left as it was. */
  function CloseCurrent(sockets: seq<ReadyState>, c: Option<nat>): (r: seq<ReadyState>)
    requires c.Some? ==> c.value < |sockets|
    ensures |r| == |sockets|
    ensures forall i :: 0 <= i < |r| ==>
      r[i] == if c == Some(i) then CloseRequested(sockets[i]) else sockets[i]
  {
    if c.Some? then sockets[c.value := CloseRequested(sockets[c.value])] else sockets
  }

  /** Closing the same socket twice is closing it once. */
  lemma {:induction false} CloseCurrentIdempotent(sockets: seq<ReadyState>, c: Option<nat>)
    requires c.Some? ==> c.value < |sockets|
    ensures CloseCurrent(CloseCurrent(sockets, c), c) == CloseCurrent(sockets, c)
  {
    if c.Some? {
      CloseIdempotent(sockets[c.value]);
    }
  }

  /** `[data, ...prev].slice(0, 50)`: the new record in front, then as many of the old
      ones, newest first, as still fit. */
  function Push(window: seq<LogEntry>, data: LogEntry): (r: seq<LogEntry>)
    ensures |r| == Min(WindowCap, |window| + 1)
    ensures r[0] == data
    ensures r[1..] == window[..Min(WindowCap - 1, |window|)]
  {
    var w := [data] + window;
    assert w[1..] == window;
    w[..Min(WindowCap, |w|)]
  }

  /** The window never grows beyond its cap, and a full window stays full. */
  lemma {:induction false} PushKeepsCap(window: seq<LogEntry>, data: LogEntry)
    requires |window| <= WindowCap
    ensures |Push(window, data)| <= WindowCap
    ensures |window| == WindowCap ==> |Push(window, data)| == WindowCap
    ensures |window| < WindowCap ==> Push(window, data) == [data] + window
  {
    var r := Push(window, data);
    if |window| < WindowCap {
      assert window[..Min(WindowCap - 1, |window|)] == window;
      assert r == [r[0]] + r[1..];
    }
  }

  /** The deadlines are in non-decreasing order. */
  ghost predicate Ascending(p: seq<int>)
  {
    forall j, k :: 0 <= j < k < |p| ==> p[j] <= p[k]
  }

  /** The deadlines still pending at time `t`: the timers that have not fired yet. */
  function Later(p: seq<int>, t: int): (r: seq<int>)
    ensures |r| <= |p|
    ensures forall k :: 0 <= k < |r| ==> r[k] > t
    ensures forall d :: d in r <==> d in p && d > t
  {
    if p == [] then []
    else if p[0] <= t then Later(p[1..], t)
    else [p[0]] + Later(p[1..], t)
  }

  /** Some deadline in `p` is due at time `t`, so at least one timer fires. */
  predicate Fires(p: seq<int>, t: int)
  {
    exists k :: 0 <= k < |p| && p[k] <= t
  }

  /** In an ascending sequence the due deadlines form a prefix: dropping the first `j`
      of them, all due, leaves what `Later` keeps once the front is no longer due. */
  lemma {:induction false} LaterOfPrefix(p: seq<int>, j: nat, t: int)
    requires Ascending(p) && j <= |p|
    requires forall k :: 0 <= k < j ==> p[k] <= t
    requires j == |p| || p[j] > t
    ensures Later(p, t) == p[j..]
    decreases j
  {
    if j == 0 {
      AllLater(p, t);
    } else {
      assert p[1..][j - 1..] == p[j..];
      LaterOfPrefix(p[1..], j - 1, t);
    }
  }

  /** The due prefix of an ascending sequence fires a timer exactly when it is not
      empty, and it is the whole sequence once the last deadline is reached. */
  lemma {:induction false} DuePrefix(p: seq<int>, j: nat, t: int)
    requires Ascending(p) && j <= |p|
    requires forall k :: 0 <= k < j ==> p[k] <= t
    requires j == |p| || p[j] > t
    ensures Later(p, t) == p[j..]
    ensures Fires(p, t) <==> j > 0
    ensures p != [] && t >= p[|p| - 1] ==> j == |p|
  {
    LaterOfPrefix(p, j, t);
    if j > 0 {
      assert p[0] <= t;
    }
    if j < |p| && p != [] {
      assert p[j] <= p[|p| - 1];
    }
  }

  lemma {:induction false} AllLater(p: seq<int>, t: int)
    requires forall k :: 0 <= k < |p| ==> p[k] > t
    ensures Later(p, t) == p
    decreases |p|
  {
    if p != [] {
      AllLater(p[1..], t);
      assert [p[0]] + p[1..] == p;
    }
  }

  /** How many timers at the front of `p` are due at time `t`. */
  method DueCount(p: seq<int>, t: int) returns (j: nat)
    ensures j <= |p|
    ensures forall k :: 0 <= k < j ==> p[k] <= t
    ensures j == |p| || p[j] > t
  {
    j := 0;
    while j < |p| && p[j] <= t
      invariant j <= |p|
      invariant forall k :: 0 <= k < j ==> p[k] <= t
    {
      j := j + 1;
    }
  }

  class LiveLogProvider {
    var logs: seq<LogEntry>
    var isConnected: bool
    var alert: Option<LogEntry>
    var lastMessageAt: Option<int>
    var isManuallyConnected: bool
    /** The ready state of every socket ever created, in creation order. */
    var sockets: seq<ReadyState>
    /** `wsRef.current`: the socket the last effect run created; never reset to null. */
    var current: Option<nat>
    /** The deadlines of the alert-clear timers that have not fired; none is ever
        cancelled. */
    var pending: seq<int>
    /** `Date.now()`. */
    var clock: int
    /** The shared stats provider. */
    const store: StatsStore

    ghost predicate Valid()
      reads this, store
    {
      store.Valid() &&
      |logs| <= WindowCap &&
      (current.Some? ==> current.value < |sockets|) &&
      // at most one socket can still open or deliver, and it is the armed one
      (forall i :: 0 <= i < |sockets| && Live(sockets[i]) ==>
         isManuallyConnected && current == Some(i)) &&
      (isConnected ==>
         isManuallyConnected && current.Some? &&
         (sockets[current.value] == Open || sockets[current.value] == Closing)) &&
      Ascending(pending) &&
      (forall k :: 0 <= k < |pending| ==> clock < pending[k] <= clock + AlertMillis) &&
      // a shown alert always has a clear timer still to come
      (alert.Some? ==> pending != [])
    }

    /** The provider as first rendered, at time `now`. */
    constructor (store: StatsStore, now: int)
      requires store.Valid()
      ensures Valid() && this.store == store && store.stats == old(store.stats)
      ensures logs == [] && !isConnected && alert == None && lastMessageAt == None
      ensures !isManuallyConnected && sockets == [] && current == None
      ensures pending == [] && clock == now
    {
      this.store := store;
      logs := [];
      isConnected := false;
      alert := None;
      lastMessageAt := None;
      isManuallyConnected := false;
      sockets := [];
      current := None;
      pending := [];
      clock := now;
    }

    /** `connectWebSocket`, followed by the effect run the new armed flag triggers.
        `hasToken` is whether a token is stored; without one no socket is opened. */
    method Connect(hasToken: bool)
      requires Valid()
      modifies this, store
      ensures Valid() && logs == [] && IsReset(store.stats) && isManuallyConnected
      ensures !old(isManuallyConnected) && hasToken ==>
        sockets == old(sockets) + [Connecting] && current == Some(|old(sockets)|)
      ensures old(isManuallyConnected) || !hasToken ==>
        sockets == old(sockets) && current == old(current)
      ensures isConnected == old(isConnected)
      ensures alert == old(alert) && lastMessageAt == old(lastMessageAt)
      ensures pending == old(pending) && clock == old(clock)
    {
      logs := [];
      store.ResetStats();
      if !isManuallyConnected {
        isManuallyConnected := true;
        // the effect, now armed
        if hasToken {
          current := Some(|sockets|);
          sockets := sockets + [Connecting];
        }
      }
    }

    /** `disconnectWebSocket`, followed by the effect run (cleanup, then the unarmed
        branch) that happens when the armed flag actually changes. */
    method Disconnect()
      requires Valid()
      modifies this, store
      ensures Valid() && logs == [] && IsReset(store.stats) && !isManuallyConnected
      ensures !isConnected
      ensures sockets == CloseCurrent(old(sockets), old(current)) && current == old(current)
      ensures alert == old(alert) && lastMessageAt == old(lastMessageAt)
      ensures pending == old(pending) && clock == old(clock)
    {
      var wasArmed := isManuallyConnected;
      isManuallyConnected := false;
      logs := [];
      store.ResetStats();
      sockets := CloseCurrent(sockets, current);
      if wasArmed {
        // the cleanup of the armed run closes the same socket again
        CloseCurrentIdempotent(old(sockets), current);
        sockets := CloseCurrent(sockets, current);
        isConnected := false;
      }
    }

    /** The open event of socket `i`. */
    method OnOpen(i: nat)
      requires Valid() && i < |sockets| && sockets[i] == Connecting
      modifies this
      ensures Valid() && isConnected && sockets == old(sockets)[i := Open]
      ensures logs == old(logs) && alert == old(alert) && lastMessageAt == old(lastMessageAt)
      ensures isManuallyConnected == old(isManuallyConnected) && current == old(current)
      ensures pending == old(pending) && clock == old(clock)
    {
      sockets := sockets[i := Open];
      isConnected := true;
    }

    /** The close event of socket `i`: the connection flag drops, whichever socket it was. */
    method OnClose(i: nat)
      requires Valid() && i < |sockets|
      modifies this
      ensures Valid() && !isConnected && sockets == old(sockets)[i := Closed]
      ensures logs == old(logs) && alert == old(alert) && lastMessageAt == old(lastMessageAt)
      ensures isManuallyConnected == old(isManuallyConnected) && current == old(current)
      ensures pending == old(pending) && clock == old(clock)
    {
      sockets := sockets[i := Closed];
      isConnected := false;
    }

    /** The error event of socket `i`: the handler only asks the socket to close. */
    method OnError(i: nat)
      requires Valid() && i < |sockets|
      modifies this
      ensures Valid() && sockets == old(sockets)[i := CloseRequested(old(sockets)[i])]
      ensures isConnected == old(isConnected)
      ensures logs == old(logs) && alert == old(alert) && lastMessageAt == old(lastMessageAt)
      ensures isManuallyConnected == old(isManuallyConnected) && current == old(current)
      ensures pending == old(pending) && clock == old(clock)
    {
      sockets := sockets[i := CloseRequested(sockets[i])];
    }

    /** The message event of socket `i` carrying `data`: the time is recorded, the
        record enters the window, the stats take it in once, and an attack label
        raises the alert and starts a clear timer. */
    method OnMessage(i: nat, data: LogEntry)
      requires Valid() && i < |sockets| && sockets[i] == Open
      modifies this, store
      ensures Valid() && lastMessageAt == Some(clock)
      ensures logs == Push(old(logs), data)
      ensures store.stats == UpdateFromLiveLog(old(store.stats), data)
      ensures RaisesAlert(data.tag) ==>
        alert == Some(data) && pending == old(pending) + [clock + AlertMillis]
      ensures !RaisesAlert(data.tag) ==> alert == old(alert) && pending == old(pending)
      ensures isConnected == old(isConnected) && sockets == old(sockets)
      ensures isManuallyConnected == old(isManuallyConnected) && current == old(current)
      ensures clock == old(clock)
    {
      lastMessageAt := Some(clock);
      PushKeepsCap(logs, data);
      logs := Push(logs, data);
      store.ApplyLiveLog(data);
      if RaisesAlert(data.tag) {
        alert := Some(data);
        pending := pending + [clock + AlertMillis];
      }
    }

    /** Time moves on to `t`; every timer due by then fires, in deadline order, and each
        one clears the alert. */
    method Tick(t: int)
      requires Valid() && t >= clock
      modifies this
      ensures Valid() && clock == t
      ensures pending == Later(old(pending), t)
      ensures alert == if Fires(old(pending), t) then None else old(alert)
      ensures old(pending) != [] && t >= old(pending)[|old(pending)| - 1] ==>
        pending == [] && alert == None
      ensures logs == old(logs) && isConnected == old(isConnected)
      ensures lastMessageAt == old(lastMessageAt) && sockets == old(sockets)
      ensures isManuallyConnected == old(isManuallyConnected) && current == old(current)
    {
      var p := pending;
      var j := DueCount(p, t);
      // each of the `j` timers that fired set the alert to null
      if j > 0 {
        alert := None;
      }
      DuePrefix(p, j, t);
      pending := p[j..];
      clock := t;
    }
  }

  /** A record that raises an alert. */
  function Attack(): (e: LogEntry)
    ensures RaisesAlert(e.tag)
  {
    ContainsPrefix("DDoS", []);
    assert "DDoS" + [] == "DDoS";
    LogEntry("2025-01-01 00:00:00", "10.0.0.1", "/login", 120, 0.5, 2048, "DDoS", 0.9)
  }

  /** Two alerts 3000 ms apart: the timer of the first clears the second at 5000 ms,
      only 2000 ms after it was raised, while the second timer is still pending.
      `before` is the alert on screen just after the second message. */
  method EarlyClear() returns (raisedAt: int, before: Option<LogEntry>, clearedAt: int,
                               shown: Option<LogEntry>, left: seq<int>)
    ensures before == Some(Attack())
    ensures clearedAt - raisedAt < AlertMillis
    ensures shown == None && left == [raisedAt + AlertMillis]
  {
    var store := new StatsStore();
    var live := new LiveLogProvider(store, 0);
    live.Connect(true);
    live.OnOpen(0);
    var attack := Attack();
    live.OnMessage(0, attack);
    live.Tick(3000);
    raisedAt := live.clock;
    live.OnMessage(0, attack);
    before := live.alert;
    assert live.pending == [5000, 8000];
    clearedAt := 5000;
    live.Tick(clearedAt);
    assert live.pending == Later([5000, 8000], 5000);
    shown := live.alert;
    left := live.pending;
  }

  /** An error event on a socket that has already closed, as the browser delivers it
      when a connection fails: the handler's `close()` finds the socket closed and
      leaves it so, and the page stays disconnected. */
  method LateError() returns (connected: bool, state: ReadyState)
    ensures !connected && state == Closed
  {
    var store := new StatsStore();
    var live := new LiveLogProvider(store, 0);
    live.Connect(true);
    live.OnOpen(0);
    live.OnClose(0);
    live.OnError(0);
    connected := live.isConnected;
    state := live.sockets[0];
  }
}
