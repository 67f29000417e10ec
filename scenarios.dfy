/** Client code that drives the connection core through whole conversations, and what the
    contracts of the core let a caller conclude about them. */
module Scenarios {
  import opened Wire
  import opened Connections
  import opened Timing

  /** alice and bob connect. alice's message to bob goes onto bob's channel, and bob's
      write loop puts it on his transport as the only binary frame. A message to carol,
      who never connected, is dropped. After bob's read fails and his connection is torn
      down, a second message to bob is dropped too. alice stays registered, with her
      transport open, the whole time. */
  method AliceBobCarol(encode: Message -> Option<Bytes>)
    returns (toBob: Route, bobFrames: seq<Frame>, toCarol: Route, afterBobLeft: Route, aliceOnline: bool)
    requires encode(Message("", "alice", "bob", "hi")).Some?
    ensures toBob.Enqueued? && toBob.to.userID == "bob"
    ensures bobFrames == [Binary(encode(Message("", "alice", "bob", "hi")).value)]
    ensures toCarol == Offline && afterBobLeft == Offline
    ensures aliceOnline
  {
    var cm := new ConnectionsManager();
    var aliceStatus, alice := HandleWebSocketConnections(cm, map["uid" := ["alice"]], true);
    var bobStatus, bob := HandleWebSocketConnections(cm, map["uid" := ["bob"]], true);
    assert "alice" != "bob";
    assert cm.connections == map["alice" := alice, "bob" := bob];
    toBob, bobFrames := HiToBob(cm, alice, bob, encode);
    toCarol := CarolIsOffline(cm, alice, bob, encode);
    BobLeaves(cm, alice, bob, encode);
    afterBobLeft := BobIsOffline(cm, alice, encode);
    var found := cm.Get("alice");
    aliceOnline := found == alice && !alice.ws.closed;
  }

  /** With alice and bob freshly connected, alice's "hi" is queued for bob and bob's
      write loop then sends it as his first frame. The registry and alice's transport
      stay as they were. */
  method HiToBob(cm: ConnectionsManager, alice: Connection, bob: Connection, encode: Message -> Option<Bytes>)
    returns (toBob: Route, bobFrames: seq<Frame>)
    requires encode(Message("", "alice", "bob", "hi")).Some?
    requires cm.connections == map["alice" := alice, "bob" := bob] && bob.userID == "bob"
    requires alice.ws != null && bob.ws != null && alice.ws != bob.ws
    requires bob.sending == [] && !bob.sendingClosed && bob.capacity == PayloadSize && bob.ws.written == []
    modifies cm, bob, bob.ws
    ensures toBob == Enqueued(bob)
    ensures bobFrames == [Binary(encode(Message("", "alice", "bob", "hi")).value)]
    ensures cm.connections == old(cm.connections) && alice.ws.closed == old(alice.ws.closed)
  {
    var hi := Message("", "alice", "bob", "hi");
    assert "bob" in cm.connections && cm.connections["bob"] == bob;
    toBob := HandleReceivingMessage(cm, hi, encode);
    assert toBob == Enqueued(bob) && bob.sending == [encode(hi).value];
    var wrote := WriteStep(cm, bob, ChannelReady, true);
    bobFrames := bob.ws.written;
  }

  /** With alice and bob registered, a message to carol, who never connected, is
      dropped and nothing changes. */
  method CarolIsOffline(cm: ConnectionsManager, alice: Connection, bob: Connection, encode: Message -> Option<Bytes>)
    returns (toCarol: Route)
    requires cm.connections == map["alice" := alice, "bob" := bob]
    ensures toCarol == Offline
  {
    assert "carol" !in cm.connections by {
      assert "carol" != "alice" && "carol" != "bob";
    }
    toCarol := HandleReceivingMessage(cm, Message("", "alice", "carol", "hi"), encode);
  }

  /** bob's read fails and tears his connection down: only alice stays registered, with
      her transport untouched. */
  method BobLeaves(cm: ConnectionsManager, alice: Connection, bob: Connection, encode: Message -> Option<Bytes>)
    requires cm.connections == map["alice" := alice, "bob" := bob] && bob.userID == "bob"
    requires alice.ws != null && bob.ws != null && alice.ws != bob.ws
    modifies cm, bob.ws
    ensures cm.connections == map["alice" := alice] && alice.ws.closed == old(alice.ws.closed)
  {
    var read := ReadStep(cm, bob, ReadFailed, encode);
    assert cm.connections == map["alice" := alice];
  }

  /** Once bob has left, a message to him is dropped. */
  method BobIsOffline(cm: ConnectionsManager, alice: Connection, encode: Message -> Option<Bytes>)
    returns (afterBobLeft: Route)
    requires cm.connections == map["alice" := alice]
    ensures afterBobLeft == Offline
  {
    assert "bob" !in cm.connections;
    afterBobLeft := HandleReceivingMessage(cm, Message("", "alice", "bob", "again"), encode);
  }

  /** alice's read loop handles two envelopes for bob. Neither can block (bob's channel
      is empty and far from full) nor panic (it is open), so the loop handles both and
      waits for more input, and bob's channel holds both encodings in the order alice
      sent them. */
  method AliceSendsTwice(cm: ConnectionsManager, alice: Connection, bob: Connection, encode: Message -> Option<Bytes>)
    returns (handled: nat, end: ReadEnd)
    requires encode(Message("", "alice", "bob", "hi")).Some? && encode(Message("", "alice", "bob", "again")).Some?
    requires cm.connections == map["alice" := alice, "bob" := bob]
    requires alice.userID == "alice" && bob.userID == "bob"
    requires bob.sending == [] && !bob.sendingClosed && bob.capacity == PayloadSize
    modifies cm, SocketOf(alice), cm.connections.Values
    ensures end == Waiting && handled == 2
    ensures bob.sending == [encode(Message("", "alice", "bob", "hi")).value, encode(Message("", "alice", "bob", "again")).value]
  {
    var inputs := [Received(Message("", "alice", "bob", "hi")), Received(Message("", "alice", "bob", "again"))];
    assert cm.Keyed();
    assert View(cm.connections)["bob"] == Chan([], false, PayloadSize);
    ghost var views;
    handled, end, views := ReadLoop(cm, alice, inputs, encode);
    TwoForBob(views, inputs, handled, encode);
    assert View(cm.connections)["bob"] == views[handled]["bob"];
  }

  /** Along any trace of the two envelopes for bob, starting from bob's empty, open
      channel, bob's channel holds the encodings of the envelopes handled so far. */
  lemma TwoForBob(views: seq<map<string, Chan>>, inputs: seq<Inbound>, n: nat, encode: Message -> Option<Bytes>)
    requires encode(Message("", "alice", "bob", "hi")).Some? && encode(Message("", "alice", "bob", "again")).Some?
    requires inputs == [Received(Message("", "alice", "bob", "hi")), Received(Message("", "alice", "bob", "again"))]
    requires Traces(views, inputs, n, encode)
    requires "bob" in views[0] && views[0]["bob"] == Chan([], false, PayloadSize)
    ensures "bob" in views[n]
    ensures views[n]["bob"]
            == Chan([encode(Message("", "alice", "bob", "hi")).value,
                     encode(Message("", "alice", "bob", "again")).value][..n], false, PayloadSize)
  {
    TraceAddressed(views, inputs, n, encode);
    assert inputs[..1] == [inputs[0]] && inputs[..2] == inputs;
    assert inputs[..1][..0] == [] && inputs[..2][..1] == inputs[..1];
  }

  /** bob connects twice. The second registration replaces the first, which stays open
      but is no longer reachable. When the first connection's ping then fails, its
      teardown deletes the entry under "bob", which is the second connection: bob is now
      offline although his newer transport is still open. */
  method StaleCleanUpUnregistersNewer()
    returns (displacedOpen: bool, found: Connection?, newerOpen: bool)
    ensures displacedOpen
    ensures found == null
    ensures newerOpen
  {
    var cm := new ConnectionsManager();
    var s1, older := HandleWebSocketConnections(cm, map["uid" := ["bob"]], true);
    var s2, newer := HandleWebSocketConnections(cm, map["uid" := ["bob"]], true);
    displacedOpen := older !in cm.connections.Values && !older.ws.closed;
    var r := WriteStep(cm, older, Tick, false);
    found := cm.Get("bob");
    newerOpen := !newer.ws.closed;
  }

  /** Add then Get finds the added connection and leaves every other id as it was; Remove
      then Get finds nothing under that id. */
  method RegistryRoundTrip(cm: ConnectionsManager, c: Connection, other: string)
    returns (afterAdd: Connection?, otherAfterAdd: Connection?, afterRemove: Connection?)
    requires other != c.userID
    modifies cm
    ensures afterAdd == c
    ensures otherAfterAdd == (if other in old(cm.connections) then old(cm.connections)[other] else null)
    ensures afterRemove == null
    ensures cm.connections == old(cm.connections) - {c.userID}
  {
    cm.Add(c);
    afterAdd := cm.Get(c.userID);
    otherAfterAdd := cm.Get(other);
    cm.Remove(c);
    afterRemove := cm.Get(c.userID);
  }
}
