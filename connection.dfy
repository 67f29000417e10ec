/** The connection lifecycle of the chat server: the registry of online users, one bounded
    outbound channel per connection, the router between them, and the per-iteration steps
    of each connection's read and write loops.

    The Go code runs two goroutines per connection against a package-level registry. Here
    the registry is an explicit `ConnectionsManager` argument, and every loop iteration or
    handler call is one atomic step. What the environment decides (the outcome of a
    transport read or write, whether json.Marshal succeeds, which `select` case fires) is
    an input of the step. */
module Connections {
  import opened Wire
  import opened Timing

  /** A websocket transport: whether Close has been called on it, and the frames it has
      accepted, oldest first. */
  class Socket {
    var closed: bool
    var written: seq<Frame>

    constructor ()
      ensures !closed && written == []
    {
      closed := false;
      written := [];
    }
  }

  /** One client's connection: its claimed user id, its transport, and its outbound
      channel (`sendingChannel`), a FIFO buffer of `capacity` items that can also be
      closed. */
  class Connection {
    const userID: string
    const ws: Socket?
    const capacity: nat
    var sending: seq<Bytes>
    var sendingClosed: bool

    /** The channel never holds more than its capacity. */
    ghost predicate Valid()
      reads this
    {
      |sending| <= capacity
    }

    /** `&Connection{userID, ws, make(chan []byte, payloadSize)}` */
    constructor (userID: string, ws: Socket?)
      ensures this.userID == userID && this.ws == ws
      ensures capacity == PayloadSize && sending == [] && !sendingClosed
      ensures Valid()
    {
      this.userID := userID;
      this.ws := ws;
      capacity := PayloadSize;
      sending := [];
      sendingClosed := false;
    }
  }

  /** The registry: which connection is reachable under each user id. */
  class ConnectionsManager {
    var connections: map<string, Connection>

    /** Every entry is stored under its own connection's id, so an id has at most one
        entry and no connection is reachable under two ids. */
    ghost predicate Keyed()
      reads this
    {
      forall id :: id in connections ==> connections[id].userID == id
    }

    constructor ()
      ensures connections == map[] && Keyed()
    {
      connections := map[];
    }

    /** Registers `conn` under its id, silently replacing whatever was registered there;
        nil is ignored. */
    method Add(conn: Connection?)
      modifies this
      ensures conn == null ==> connections == old(connections)
      ensures conn != null ==> connections == old(connections)[conn.userID := conn]
      ensures old(Keyed()) ==> Keyed()
      // The replaced connection is no longer reachable from the registry at all.
      ensures old(Keyed()) && conn != null && conn.userID in old(connections)
                && old(connections)[conn.userID] != conn
              ==> old(connections)[conn.userID] !in connections.Values
    {
      if conn != null {
        connections := connections[conn.userID := conn];
      }
    }

    /** Deletes the entry under `conn`'s id, whichever connection it holds; nil is ignored. */
    method Remove(conn: Connection?)
      modifies this
      ensures conn == null ==> connections == old(connections)
      ensures conn != null ==> connections == old(connections) - {conn.userID}
      ensures old(Keyed()) ==> Keyed()
    {
      if conn != null {
        connections := connections - {conn.userID};
      }
    }

    /** The connection registered under `clientID`, or nil when there is none. */
    method Get(clientID: string) returns (conn: Connection?)
      ensures conn == null <==> clientID !in connections
      ensures conn != null ==> conn == connections[clientID]
    {
      if clientID in connections {
        conn := connections[clientID];
      } else {
        conn := null;
      }
    }
  }

  /** The transport of `c`, as a frame; empty for nil. */
  ghost function SocketOf(c: Connection?): set<object>
  {
    if c != null && c.ws != null then {c.ws} else {}
  }

  /** The connection registered under `id`, as a frame; empty when `id` is offline. */
  ghost function Registered(cm: ConnectionsManager, id: string): set<object>
    reads cm
  {
    if id in cm.connections then {cm.connections[id]} else {}
  }

  /** The effect of cleanUp on a non-nil connection: its id is absent from the registry
      and its transport, if any, is closed. */
  twostate predicate TornDown(cm: ConnectionsManager, c: Connection)
    reads cm, SocketOf(c)
  {
    && cm.connections == old(cm.connections) - {c.userID}
    && (c.ws != null ==> c.ws.closed)
  }

  /** cleanUp: deregisters `c` and closes its transport; nil changes nothing. */
  method CleanUp(cm: ConnectionsManager, c: Connection?)
    modifies cm, SocketOf(c)
    ensures c == null ==> unchanged(cm)
    ensures c != null ==> TornDown(cm, c)
    ensures c != null && c.ws != null ==> c.ws.written == old(c.ws.written)
    ensures old(cm.Keyed()) ==> cm.Keyed()
  {
    if c != null {
      cm.Remove(c);
      if c.ws != null {
        c.ws.closed := true;
      }
    }
  }

  /** What one call of the router did. `Blocked` means the receiver's channel was full:
      the Go send blocks, so the step has no effect and the send is still pending.
      `Panicked` is a send on a closed channel, which aborts the process in Go. */
  datatype Route = Offline | EncodeFailed | Blocked | Panicked | Enqueued(to: Connection)

  /** The router's effect on the receiver's connection `target` once the message has
      encoded to `bytes`: exactly one outcome, decided by the channel's state before the
      send, and on `Enqueued` the bytes are the new last item of the channel. */
  twostate predicate Routed(target: Connection, bytes: Bytes, new r: Route)
    reads target
  {
    && (r == Panicked <==> old(target.sendingClosed))
    && (r == Blocked <==> !old(target.sendingClosed) && old(|target.sending|) >= target.capacity)
    && (r == Enqueued(target) <==> !old(target.sendingClosed) && old(|target.sending|) < target.capacity)
    && target.sending == (if r.Enqueued? then old(target.sending) + [bytes] else old(target.sending))
    && target.sendingClosed == old(target.sendingClosed)
  }

  /** The outcome of one ReadJSON: a decoded envelope, or any error (malformed JSON, a
      frame over the read limit, an expired read deadline, a closed transport). */
  datatype Inbound = Received(msg: Message) | ReadFailed

  /** One outbound channel as the router sees it: the buffered items, oldest first,
      whether it has been closed, and its capacity. */
  datatype Chan = Chan(items: seq<Bytes>, closed: bool, capacity: nat)

  /** The channel of every connection in `conns`, by id. */
  ghost function View(conns: map<string, Connection>): map<string, Chan>
    reads conns.Values
  {
    map id | id in conns :: Chan(conns[id].sending, conns[id].sendingClosed, conns[id].capacity)
  }

  /** Whether each channel of `view` has been closed, by id. */
  function ClosedFlags(view: map<string, Chan>): map<string, bool>
  {
    map id | id in view :: view[id].closed
  }

  /** No channel of `view` holds more than its capacity. */
  predicate Fit(view: map<string, Chan>)
  {
    forall id :: id in view ==> |view[id].items| <= view[id].capacity
  }

  /** The router blocks on `input`: a decoded envelope json.Marshal accepts, whose
      receiver is registered with an open, full channel. */
  predicate Blocks(view: map<string, Chan>, input: Inbound, encode: Message -> Option<Bytes>)
  {
    && input.Received? && input.msg.receiverID in view && encode(input.msg).Some?
    && !view[input.msg.receiverID].closed
    && |view[input.msg.receiverID].items| >= view[input.msg.receiverID].capacity
  }

  /** The router panics on `input`: a decoded envelope json.Marshal accepts, whose
      receiver is registered with a closed channel. */
  predicate Panics(view: map<string, Chan>, input: Inbound, encode: Message -> Option<Bytes>)
  {
    && input.Received? && input.msg.receiverID in view && encode(input.msg).Some?
    && view[input.msg.receiverID].closed
  }

  /** The channels `view` once the router has handled `input`. */
  function Deliver(view: map<string, Chan>, input: Inbound, encode: Message -> Option<Bytes>): map<string, Chan>
  {
    if input.Received? && input.msg.receiverID in view && encode(input.msg).Some? then
      var id := input.msg.receiverID;
      view[id := view[id].(items := view[id].items + [encode(input.msg).value])]
    else view
  }

  /** handleReceivingMessage: looks the receiver up; drops the message when the receiver
      is offline or json.Marshal fails; otherwise sends the encoded bytes on the
      receiver's channel. Only the receiver's connection can change, never the registry. */
  method HandleReceivingMessage(cm: ConnectionsManager, msg: Message, encode: Message -> Option<Bytes>)
    returns (r: Route)
    modifies Registered(cm, msg.receiverID)
    ensures unchanged(cm)
    ensures r == Offline <==> msg.receiverID !in cm.connections
    ensures r == EncodeFailed <==> msg.receiverID in cm.connections && encode(msg).None?
    ensures msg.receiverID in cm.connections && encode(msg).Some? ==>
              Routed(old(cm.connections)[msg.receiverID], encode(msg).value, r)
    ensures !r.Enqueued? ==> unchanged(Registered(cm, msg.receiverID))
    ensures r.Enqueued? && old(r.to.Valid()) ==> r.to.Valid()
    // Registry-wide: a stuck send is decided by the receiver's channel, no channel is
    // closed or overfilled, and in a registry keyed by id only the receiver's channel grows.
    ensures r == Blocked ==> Blocks(View(cm.connections), Received(msg), encode)
    ensures r == Panicked ==> Panics(View(cm.connections), Received(msg), encode)
    ensures ClosedFlags(View(cm.connections)) == old(ClosedFlags(View(cm.connections)))
    ensures old(Fit(View(cm.connections))) ==> Fit(View(cm.connections))
    ensures old(cm.Keyed()) ==>
              View(cm.connections)
              == if r == Blocked || r == Panicked then old(View(cm.connections))
                 else Deliver(old(View(cm.connections)), Received(msg), encode)
  {
    ghost var view := View(cm.connections);
    var con := cm.Get(msg.receiverID);
    if con == null {
      return Offline;
    }
    var bytes := encode(msg);
    if bytes.None? {
      return EncodeFailed;
    }
    if con.sendingClosed {
      return Panicked;
    }
    if |con.sending| >= con.capacity {
      return Blocked;
    }
    con.sending := con.sending + [bytes.value];
    r := Enqueued(con);
    assert ClosedFlags(View(cm.connections)) == ClosedFlags(view);
    if old(cm.Keyed()) {
      forall id | id in cm.connections
        ensures View(cm.connections)[id] == Deliver(view, Received(msg), encode)[id]
      {
        if id != msg.receiverID {
          assert cm.connections[id].userID != con.userID;
        }
      }
    }
  }

  datatype ReadOutcome = Dispatched(route: Route) | ReadTerminated

  /** The frame of one read step on `c` with `input`. */
  ghost function ReadFrame(cm: ConnectionsManager, c: Connection, input: Inbound): set<object>
    reads cm
  {
    {cm} + SocketOf(c) + (if input.Received? then Registered(cm, input.msg.receiverID) else {})
  }

  /** What the router puts on the channel registered under `id` for one input: its
      encoding, when it is an envelope addressed to `id` that json.Marshal accepts. */
  function Delivered(input: Inbound, id: string, encode: Message -> Option<Bytes>): seq<Bytes>
  {
    if input.Received? && input.msg.receiverID == id && encode(input.msg).Some?
    then [encode(input.msg).value] else []
  }

  /** The encoded envelopes among `ins` that are addressed to `id` and that json.Marshal
      accepts, in input order: what the router puts on the channel of the connection
      registered under `id`. */
  function Addressed(ins: seq<Inbound>, id: string, encode: Message -> Option<Bytes>): seq<Bytes>
  {
    if ins == [] then [] else Addressed(ins[..|ins| - 1], id, encode) + Delivered(ins[|ins| - 1], id, encode)
  }

  /** One more delivery on channels that hold the envelopes of `pre` extends them to those
      of `pre + [x]`. */
  lemma DeliverAddressed(view: map<string, Chan>, m: map<string, Chan>, pre: seq<Inbound>, x: Inbound,
                         encode: Message -> Option<Bytes>)
    requires m.Keys == view.Keys
    requires forall id :: id in view ==> m[id] == view[id].(items := view[id].items + Addressed(pre, id, encode))
    ensures Deliver(m, x, encode).Keys == view.Keys
    ensures forall id :: id in view ==>
              Deliver(m, x, encode)[id] == view[id].(items := view[id].items + Addressed(pre + [x], id, encode))
  {
    assert (pre + [x])[..|pre|] == pre;
    forall id | id in view
      ensures Deliver(m, x, encode)[id] == view[id].(items := view[id].items + Addressed(pre + [x], id, encode))
    {
      assert Addressed(pre + [x], id, encode) == Addressed(pre, id, encode) + Delivered(x, id, encode);
      if x.Received? && x.msg.receiverID == id && encode(x.msg).Some? {
        assert Deliver(m, x, encode)[id] == m[id].(items := m[id].items + [encode(x.msg).value]);
      } else {
        assert Deliver(m, x, encode)[id] == m[id];
      }
    }
  }

  /** `views` follows the router through the first `n` inputs of `ins`: each view is the
      one before it after one more delivery. */
  predicate Traces(views: seq<map<string, Chan>>, ins: seq<Inbound>, n: nat, encode: Message -> Option<Bytes>)
  {
    && n <= |ins| && |views| == n + 1
    && forall i :: 0 <= i < n ==> views[i + 1] == Deliver(views[i], ins[i], encode)
  }

  /** Handling one more input extends the trace by one delivery. */
  lemma TracesSnoc(views: seq<map<string, Chan>>, ins: seq<Inbound>, n: nat, encode: Message -> Option<Bytes>)
    requires Traces(views, ins, n, encode) && n < |ins|
    ensures Traces(views + [Deliver(views[n], ins[n], encode)], ins, n + 1, encode)
  {
    var next := views + [Deliver(views[n], ins[n], encode)];
    assert forall i :: 0 <= i <= n ==> next[i] == views[i];
  }

  /** Over a trace of deliveries of the first `n` inputs of `ins`, every channel grows by
      exactly the envelopes among them addressed to its id, in input order; no channel is
      added, dropped or closed, and every capacity is kept. */
  lemma {:induction false} TraceAddressed(views: seq<map<string, Chan>>, ins: seq<Inbound>, n: nat,
                                          encode: Message -> Option<Bytes>)
    requires Traces(views, ins, n, encode)
    ensures views[n].Keys == views[0].Keys
    ensures forall id :: id in views[0] ==>
              views[n][id] == views[0][id].(items := views[0][id].items + Addressed(ins[..n], id, encode))
  {
    if n > 0 {
      assert Traces(views[..n], ins, n - 1, encode);
      TraceAddressed(views[..n], ins, n - 1, encode);
      assert ins[..n - 1] + [ins[n - 1]] == ins[..n];
      DeliverAddressed(views[0], views[n - 1], ins[..n - 1], ins[n - 1], encode);
    }
  }

  /** Every input of `ins` is a decoded envelope. */
  predicate AllDecoded(ins: seq<Inbound>)
  {
    forall i :: 0 <= i < |ins| ==> ins[i].Received?
  }

  /** One more decoded envelope extends a decoded prefix. */
  lemma DecodedSnoc(ins: seq<Inbound>, n: nat)
    requires n < |ins| && AllDecoded(ins[..n]) && ins[n].Received?
    ensures AllDecoded(ins[..n + 1])
  {
    assert forall i :: 0 <= i < n ==> ins[..n + 1][i] == ins[..n][i];
  }

  /** A router outcome after which the read goroutine cannot go on. */
  predicate Stuck(r: ReadOutcome)
  {
    r == Dispatched(Blocked) || r == Dispatched(Panicked)
  }

  /** One iteration of readLoop: a read error ends the loop and runs cleanUp (the deferred
      call); a decoded envelope is handed to the router. */
  method ReadStep(cm: ConnectionsManager, c: Connection, input: Inbound, encode: Message -> Option<Bytes>)
    returns (r: ReadOutcome)
    modifies ReadFrame(cm, c, input)
    ensures input.ReadFailed? ==> r == ReadTerminated && TornDown(cm, c)
    ensures input.ReadFailed? && c.ws != null ==> c.ws.written == old(c.ws.written)
    ensures input.Received? ==> r.Dispatched? && unchanged(cm) && unchanged(SocketOf(c))
    ensures input.Received? ==> (r.route == Offline <==> input.msg.receiverID !in cm.connections)
    ensures input.Received? ==>
              (r.route == EncodeFailed <==> input.msg.receiverID in cm.connections && encode(input.msg).None?)
    ensures input.Received? && input.msg.receiverID in cm.connections && encode(input.msg).Some?
            ==> Routed(old(cm.connections)[input.msg.receiverID], encode(input.msg).value, r.route)
    ensures input.Received? && !r.route.Enqueued? ==> unchanged(Registered(cm, input.msg.receiverID))
    // Every channel of the registry: a stuck send is decided by the receiver's channel;
    // when the registry is keyed by id, a failed read or a stuck send changes no channel,
    // and otherwise the envelope lands on its receiver's channel and nowhere else.
    ensures r == Dispatched(Blocked) ==> Blocks(View(old(cm.connections)), input, encode)
    ensures r == Dispatched(Panicked) ==> Panics(View(old(cm.connections)), input, encode)
    ensures old(cm.Keyed()) && (r == ReadTerminated || Stuck(r)) ==>
              View(old(cm.connections)) == old(View(cm.connections))
    ensures old(cm.Keyed()) && !(r == ReadTerminated || Stuck(r)) ==>
              View(old(cm.connections)) == Deliver(old(View(cm.connections)), input, encode)
    // Conversely, in a keyed registry a send that went through found its channel open
    // and with room.
    ensures old(cm.Keyed()) && r.Dispatched? && !Stuck(r) ==>
              !Blocks(old(View(cm.connections)), input, encode) && !Panics(old(View(cm.connections)), input, encode)
    ensures old(cm.Keyed()) ==> cm.Keyed()
  {
    match input
    case ReadFailed =>
      CleanUp(cm, c);
      r := ReadTerminated;
    case Received(msg) =>
      var route := HandleReceivingMessage(cm, msg, encode);
      r := Dispatched(route);
  }

  /** How a run of readLoop over a finite stretch of inputs stopped. `Waiting`: every
      input was handled and the loop waits for the next frame. `Stalled`: the router
      blocked on a full channel. `Aborted`: the router panicked. `Closed`: a read failed
      and cleanUp ran. */
  datatype ReadEnd = Waiting | Stalled | Aborted | Closed

  /** readLoop over the inputs the transport delivers: dispatches decoded envelopes until
      a read fails, a send blocks or panics, or the inputs run out. Reading never changes
      the registry or the transport until the loop ends with a failed read. `views` holds
      the registry's channels before the first input and after each handled one, each
      the router's delivery of one more input (by `TraceAddressed`, every channel grows by
      exactly the handled envelopes addressed to its id, in input order). */
  method ReadLoop(cm: ConnectionsManager, c: Connection, inputs: seq<Inbound>, encode: Message -> Option<Bytes>)
    returns (handled: nat, end: ReadEnd, ghost views: seq<map<string, Chan>>)
    modifies cm, SocketOf(c), cm.connections.Values
    ensures handled <= |inputs|
    ensures AllDecoded(inputs[..handled])
    ensures end == Waiting <==> handled == |inputs|
    ensures end == Closed ==> inputs[handled].ReadFailed? && TornDown(cm, c)
    ensures end == Closed && c.ws != null ==> c.ws.written == old(c.ws.written)
    ensures end != Closed ==> unchanged(cm) && unchanged(SocketOf(c))
    // The loop stalls exactly where the router blocked, and aborts where it panicked.
    ensures end == Stalled ==> Blocks(View(old(cm.connections)), inputs[handled], encode)
    ensures end == Aborted ==> Panics(View(old(cm.connections)), inputs[handled], encode)
    // What happened to every channel of the registry.
    ensures Traces(views, inputs, handled, encode) && views[0] == old(View(cm.connections))
    ensures old(cm.Keyed()) ==> View(old(cm.connections)) == views[handled]
    // In a keyed registry every handled envelope for a registered receiver that encodes
    // found that receiver's channel open and with room.
    ensures old(cm.Keyed()) ==>
              forall i :: 0 <= i < handled ==> !Blocks(views[i], inputs[i], encode) && !Panics(views[i], inputs[i], encode)
    ensures old(cm.Keyed()) ==> cm.Keyed()
  {
    ghost var conns := cm.connections;
    ghost var keyed := cm.Keyed();
    ghost var view := View(conns);
    views := [view];
    handled, end := 0, Waiting;
    while handled < |inputs|
      invariant handled <= |inputs|
      invariant AllDecoded(inputs[..handled])
      invariant unchanged(cm) && unchanged(SocketOf(c))
      invariant cm.connections == conns
      invariant Traces(views, inputs, handled, encode) && views[0] == view
      invariant keyed ==> View(conns) == views[handled]
      invariant keyed ==>
                  forall i :: 0 <= i < handled ==> !Blocks(views[i], inputs[i], encode) && !Panics(views[i], inputs[i], encode)
      decreases |inputs| - handled
    {
      var input := inputs[handled];
      if input.ReadFailed? {
        var r := ReadStep(cm, c, input, encode);
        end := Closed;
        return;
      }
      DecodedSnoc(inputs, handled);
      TracesSnoc(views, inputs, handled, encode);
      ghost var next := Deliver(views[handled], input, encode);
      var r := ReadStep(cm, c, input, encode);
      if Stuck(r) {
        end := if r == Dispatched(Blocked) then Stalled else Aborted;
        return;
      }
      views := views + [next];
      handled := handled + 1;
    }
  }

  /** The `select` case that fires in one iteration of writeLoop: a receive on the
      outbound channel, or a ticker tick. */
  datatype WriteEvent = ChannelReady | Tick

  /** `Idle` is a receive on an empty, open channel: that case cannot fire, so nothing
      happens. */
  datatype WriteOutcome = Wrote(frame: Frame) | Idle | WriteTerminated

  /** One iteration of writeLoop. `ok` is the transport's answer: for a queued item,
      whether NextWriter succeeded; for a tick, whether the ping was written; for a closed
      channel, whether the close frame went out (the loop ends either way). Every exit
      runs cleanUp. */
  method WriteStep(cm: ConnectionsManager, c: Connection, ev: WriteEvent, ok: bool)
    returns (r: WriteOutcome)
    requires c.ws != null
    modifies cm, c, c.ws
    ensures c.sendingClosed == old(c.sendingClosed)
    // A queued item: exactly the head is removed, and written as a binary frame.
    ensures ev == ChannelReady && old(c.sending) != [] ==>
              && c.sending == old(c.sending)[1..]
              && (ok ==> && r == Wrote(Binary(old(c.sending)[0]))
                         && c.ws.written == old(c.ws.written) + [Binary(old(c.sending)[0])]
                         && unchanged(cm) && c.ws.closed == old(c.ws.closed))
              && (!ok ==> r == WriteTerminated && c.ws.written == old(c.ws.written) && TornDown(cm, c))
    // A closed, drained channel: a close frame, then termination.
    ensures ev == ChannelReady && old(c.sending) == [] && old(c.sendingClosed) ==>
              && r == WriteTerminated && c.sending == []
              && c.ws.written == old(c.ws.written) + (if ok then [Close] else [])
              && TornDown(cm, c)
    ensures ev == ChannelReady && old(c.sending) == [] && !old(c.sendingClosed) ==>
              r == Idle && unchanged(cm) && unchanged(c) && unchanged(c.ws)
    // A tick: a ping, or termination when the ping fails.
    ensures ev == Tick ==> c.sending == old(c.sending)
    ensures ev == Tick && ok ==>
              && r == Wrote(Ping) && c.ws.written == old(c.ws.written) + [Ping]
              && unchanged(cm) && c.ws.closed == old(c.ws.closed)
    ensures ev == Tick && !ok ==>
              r == WriteTerminated && c.ws.written == old(c.ws.written) && TornDown(cm, c)
    // All of the above, as the reference step.
    ensures var st := StepSpec(old(c.sending), old(c.sendingClosed), ev, ok);
            && c.ws.written == old(c.ws.written) + st.frames
            && c.sending == st.rest
            && (r == WriteTerminated <==> st.terminated)
    ensures old(c.Valid()) ==> c.Valid()
    ensures old(cm.Keyed()) ==> cm.Keyed()
  {
    match ev
    case ChannelReady =>
      if c.sending != [] {
        var bytes := c.sending[0];
        c.sending := c.sending[1..];
        if !ok {
          CleanUp(cm, c);
          return WriteTerminated;
        }
        c.ws.written := c.ws.written + [Binary(bytes)];
        r := Wrote(Binary(bytes));
      } else if c.sendingClosed {
        if ok {
          c.ws.written := c.ws.written + [Close];
        }
        CleanUp(cm, c);
        r := WriteTerminated;
      } else {
        r := Idle;
      }
    case Tick =>
      if !ok {
        CleanUp(cm, c);
        return WriteTerminated;
      }
      c.ws.written := c.ws.written + [Ping];
      r := Wrote(Ping);
  }

  /** What a run of writeLoop does, as a value: the frames it writes, the channel it
      leaves behind, and whether the loop ended. */
  datatype WriteRun = WriteRun(frames: seq<Frame>, rest: seq<Bytes>, terminated: bool)

  /** The reference effect of one writeLoop iteration on a channel holding `queue`, open
      or `closed`, for the `select` case `ev` and the transport answer `ok`: the frames
      written, the channel left, and whether the loop ends. */
  function StepSpec(queue: seq<Bytes>, closed: bool, ev: WriteEvent, ok: bool): WriteRun
  {
    match ev
    case Tick =>
      if ok then WriteRun([Ping], queue, false) else WriteRun([], queue, true)
    case ChannelReady =>
      if queue == [] then
        if closed then WriteRun(if ok then [Close] else [], [], true)
        else WriteRun([], queue, false)
      else if ok then WriteRun([Binary(queue[0])], queue[1..], false)
      else WriteRun([], queue[1..], true)
  }

  /** The reference run of writeLoop under the schedule `events` of `select` cases and
      transport answers: steps are taken in order until one ends the loop. */
  function WriteSpec(queue: seq<Bytes>, closed: bool, events: seq<(WriteEvent, bool)>): WriteRun
    decreases |events|
  {
    if events == [] then WriteRun([], queue, false)
    else
      var st := StepSpec(queue, closed, events[0].0, events[0].1);
      if st.terminated then st
      else
        var s := WriteSpec(st.rest, closed, events[1..]);
        WriteRun(st.frames + s.frames, s.rest, s.terminated)
  }

  /** The smaller of `a` and `b`. */
  function Min(a: int, b: int): int
  {
    if a < b then a else b
  }

  /** The number of receive events in a schedule. */
  function CountReady(events: seq<(WriteEvent, bool)>): nat
  {
    if events == [] then 0 else (if events[0].0 == ChannelReady then 1 else 0) + CountReady(events[1..])
  }

  /** The number of tick events in a schedule. */
  function CountTick(events: seq<(WriteEvent, bool)>): nat
  {
    if events == [] then 0 else (if events[0].0 == Tick then 1 else 0) + CountTick(events[1..])
  }

  /** One iteration writes no payload and leaves the channel alone, takes the head off
      and writes it, or takes the head off and writes nothing before ending the loop. */
  lemma StepSpecShape(queue: seq<Bytes>, closed: bool, ev: WriteEvent, ok: bool)
    ensures var st := StepSpec(queue, closed, ev, ok);
            || (Payloads(st.frames) == [] && st.rest == queue)
            || (queue != [] && Payloads(st.frames) == [queue[0]] && st.rest == queue[1..] && !st.terminated)
            || (queue != [] && Payloads(st.frames) == [] && st.rest == queue[1..] && st.terminated)
  {
    PayloadsOfOne(Ping);
    PayloadsOfOne(Close);
    if queue != [] {
      PayloadsOfOne(Binary(queue[0]));
    }
  }

  /** The FIFO property of a run survives putting in front of it a step that writes no
      payload and leaves the channel alone, or takes the head off and writes it. */
  lemma FifoCons(queue: seq<Bytes>, frames: seq<Frame>, mid: seq<Bytes>, s: WriteRun)
    requires || (Payloads(frames) == [] && mid == queue)
             || (queue != [] && Payloads(frames) == [queue[0]] && mid == queue[1..])
    requires var sent := Payloads(s.frames);
             && |sent| <= |mid| && sent == mid[..|sent|]
             && (s.rest == mid[|sent|..] || (s.terminated && |sent| < |mid| && s.rest == mid[|sent| + 1..]))
    ensures var sent := Payloads(frames + s.frames);
            && |sent| <= |queue| && sent == queue[..|sent|]
            && (s.rest == queue[|sent|..] || (s.terminated && |sent| < |queue| && s.rest == queue[|sent| + 1..]))
  {
    PayloadsAppend(frames, s.frames);
    if mid != queue {
      var n := |Payloads(s.frames)|;
      assert queue[..n + 1] == [queue[0]] + queue[1..][..n];
      assert queue[1..][n..] == queue[n + 1..];
      if n + 1 < |queue| {
        assert queue[1..][n + 1..] == queue[n + 2..];
      }
    }
  }

  /** FIFO: the binary payloads a run writes are a prefix of the channel, in channel
      order, and the channel keeps exactly the rest, except for the one item taken by a
      receive whose NextWriter failed. */
  lemma {:induction false} WriteSpecFifo(queue: seq<Bytes>, closed: bool, events: seq<(WriteEvent, bool)>)
    ensures var r := WriteSpec(queue, closed, events);
            var sent := Payloads(r.frames);
            && |sent| <= |queue| && sent == queue[..|sent|]
            && (r.rest == queue[|sent|..] || (r.terminated && |sent| < |queue| && r.rest == queue[|sent| + 1..]))
    decreases |events|
  {
    if events != [] {
      var st := StepSpec(queue, closed, events[0].0, events[0].1);
      StepSpecShape(queue, closed, events[0].0, events[0].1);
      if st.terminated {
        assert WriteSpec(queue, closed, events) == st;
        assert queue[..0] == [] && queue[0..] == queue;
      } else {
        var s := WriteSpec(st.rest, closed, events[1..]);
        assert WriteSpec(queue, closed, events) == WriteRun(st.frames + s.frames, s.rest, s.terminated);
        WriteSpecFifo(st.rest, closed, events[1..]);
        FifoCons(queue, st.frames, st.rest, s);
      }
    }
  }

  /** Progress: a run that does not end receives one channel item per receive event
      until the channel is empty, sends one ping per tick, and writes nothing else. */
  lemma {:induction false} WriteSpecProgress(queue: seq<Bytes>, closed: bool, events: seq<(WriteEvent, bool)>)
    ensures var r := WriteSpec(queue, closed, events);
            !r.terminated ==>
              && |Payloads(r.frames)| == Min(|queue|, CountReady(events))
              && |r.frames| == |Payloads(r.frames)| + CountTick(events)
    decreases |events|
  {
    if events != [] {
      var st := StepSpec(queue, closed, events[0].0, events[0].1);
      if !st.terminated {
        var s := WriteSpec(st.rest, closed, events[1..]);
        WriteSpecProgress(st.rest, closed, events[1..]);
        PayloadsAppend(st.frames, s.frames);
        PayloadsOfOne(Ping);
        if queue != [] {
          PayloadsOfOne(Binary(queue[0]));
        }
      }
    }
  }

  /** A run ends only on a failed transport answer or on a closed channel, and a close
      frame is written only for a closed channel, as the run's last frame. */
  lemma {:induction false} WriteSpecEnds(queue: seq<Bytes>, closed: bool, events: seq<(WriteEvent, bool)>)
    ensures var r := WriteSpec(queue, closed, events);
            && (r.terminated ==> closed || exists i :: 0 <= i < |events| && !events[i].1)
            && (Close in r.frames ==> closed && r.terminated && r.frames[|r.frames| - 1] == Close)
    decreases |events|
  {
    if events != [] {
      var st := StepSpec(queue, closed, events[0].0, events[0].1);
      if st.terminated {
        if !closed {
          assert !events[0].1;
        }
      } else {
        var s := WriteSpec(st.rest, closed, events[1..]);
        WriteSpecEnds(st.rest, closed, events[1..]);
        assert Close !in st.frames;
        if s.terminated && !closed {
          var j :| 0 <= j < |events[1..]| && !events[1..][j].1;
          assert events[j + 1] == events[1..][j];
        }
        if Close in st.frames + s.frames {
          assert Close in s.frames;
        }
      }
    }
  }

  /** A run that has already written `prefix` and continues as `s`. */
  function Glue(prefix: seq<Frame>, s: WriteRun): WriteRun
  {
    WriteRun(prefix + s.frames, s.rest, s.terminated)
  }

  /** Gluing on two prefixes in turn is gluing on their concatenation. */
  lemma GlueAssoc(a: seq<Frame>, b: seq<Frame>, s: WriteRun)
    ensures Glue(a, Glue(b, s)) == Glue(a + b, s)
  {
    assert a + (b + s.frames) == (a + b) + s.frames;
  }

  /** The run from event `i` on is the step at `i` followed by the run from `i + 1` on. */
  lemma WriteSpecUnfold(queue: seq<Bytes>, closed: bool, events: seq<(WriteEvent, bool)>, i: nat)
    requires i < |events|
    ensures var st := StepSpec(queue, closed, events[i].0, events[i].1);
            WriteSpec(queue, closed, events[i..])
            == if st.terminated then st else Glue(st.frames, WriteSpec(st.rest, closed, events[i + 1..]))
  {
    assert events[i..][0] == events[i];
    assert events[i..][1..] == events[i + 1..];
  }

  /** writeLoop over a finite schedule of `select` events and transport answers, with no
      other step in between: it writes exactly the frames of the reference run, leaves
      its channel, and ends exactly when it does. Every exit runs cleanUp. */
  method WriteLoop(cm: ConnectionsManager, c: Connection, events: seq<(WriteEvent, bool)>)
    returns (terminated: bool)
    requires c.ws != null
    modifies cm, c, c.ws
    ensures var r := WriteSpec(old(c.sending), old(c.sendingClosed), events);
            && c.ws.written == old(c.ws.written) + r.frames
            && c.sending == r.rest
            && terminated == r.terminated
    ensures c.sendingClosed == old(c.sendingClosed)
    ensures old(c.Valid()) ==> c.Valid()
    ensures terminated ==> TornDown(cm, c)
    ensures !terminated ==> unchanged(cm) && c.ws.closed == old(c.ws.closed)
    ensures old(cm.Keyed()) ==> cm.Keyed()
  {
    terminated := false;
    ghost var spec := WriteSpec(c.sending, c.sendingClosed, events);
    ghost var done: seq<Frame> := [];
    var i := 0;
    while i < |events| && !terminated
      invariant 0 <= i <= |events|
      invariant c.ws.written == old(c.ws.written) + done
      invariant c.sendingClosed == old(c.sendingClosed)
      invariant |c.sending| <= |old(c.sending)|
      invariant !terminated ==> spec == Glue(done, WriteSpec(c.sending, c.sendingClosed, events[i..]))
      invariant terminated ==> spec == WriteRun(done, c.sending, true)
      invariant terminated ==> TornDown(cm, c)
      invariant !terminated ==> unchanged(cm) && c.ws.closed == old(c.ws.closed)
      invariant old(cm.Keyed()) ==> cm.Keyed()
      decreases |events| - i
    {
      var ev, ok := events[i].0, events[i].1;
      ghost var st := StepSpec(c.sending, c.sendingClosed, ev, ok);
      WriteSpecUnfold(c.sending, c.sendingClosed, events, i);
      var r := WriteStep(cm, c, ev, ok);
      if r == WriteTerminated {
        terminated := true;
      } else {
        GlueAssoc(done, st.frames, WriteSpec(c.sending, c.sendingClosed, events[i + 1..]));
      }
      done := done + st.frames;
      i := i + 1;
    }
    assert !terminated ==> events[i..] == [];
  }

  const StatusSwitchingProtocols: int := 101
  const StatusBadRequest: int := 400
  const StatusInternalServerError: int := 500

  /** HandleWebSocketConnections: rejects a request without a `uid` query parameter with
      400; otherwise upgrades the transport (`upgradeOk` is the upgrader's answer; a
      failure is reported as 500) and registers a new connection under the first `uid`
      value, with an empty channel of capacity payloadSize. */
  method HandleWebSocketConnections(cm: ConnectionsManager, query: map<string, seq<string>>, upgradeOk: bool)
    returns (status: int, conn: Connection?)
    // url.Values never maps a present key to an empty list of values.
    requires "uid" in query ==> |query["uid"]| > 0
    modifies cm
    ensures "uid" !in query ==> status == StatusBadRequest && conn == null && unchanged(cm)
    ensures "uid" in query && !upgradeOk ==>
              status == StatusInternalServerError && conn == null && unchanged(cm)
    ensures "uid" in query && upgradeOk ==>
              && status == StatusSwitchingProtocols
              && conn != null && fresh(conn) && conn.userID == query["uid"][0]
              && conn.ws != null && fresh(conn.ws) && !conn.ws.closed && conn.ws.written == []
              && conn.sending == [] && !conn.sendingClosed && conn.capacity == PayloadSize && conn.Valid()
              && cm.connections == old(cm.connections)[conn.userID := conn]
    ensures old(cm.Keyed()) ==> cm.Keyed()
  {
    if "uid" !in query {
      return StatusBadRequest, null;
    }
    var clientID := query["uid"][0];
    if !upgradeOk {
      return StatusInternalServerError, null;
    }
    var ws := new Socket();
    conn := new Connection(clientID, ws);
    cm.Add(conn);
    status := StatusSwitchingProtocols;
  }
}
