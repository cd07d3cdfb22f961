/**
 * The client side of a play connection's channel networking: announcing the
 * channels this client can receive on, either one by one as they are
 * registered (once the server is ready) or in a single batch when the server
 * becomes ready, and handing received custom-payload packets to the channel
 * dispatcher.
 *
 * Everything the addon does that is observable is written to one ordered
 * trace of actions: packets it sends, the events it fires and the calls it
 * makes into the channel-registry superclass, whose own bodies are not part
 * of this model.
 */
module ClientNetworking {
  import opened Common

  /** The bytes of a packet buffer. */
  type Payload = seq<bv8>

  /** The control channel on which channel registrations are announced. */
  const REGISTER_CHANNEL: Identifier := Identifier("minecraft", "register")
  /** The control channel on which channel unregistrations are announced. */
  const UNREGISTER_CHANNEL: Identifier := Identifier("minecraft", "unregister")

  datatype Action =
    | PendingChannelsRegistered                     // superclass registerPendingChannels, at construction
    | ChannelRegistered(channel: Identifier)        // superclass registerChannel, before its handleRegistration hook
    | Sent(channel: Identifier, payload: Payload)   // sendPacket of a single-channel announcement
    | RegistrationBatchSent                         // superclass sendChannelRegistrationPacket
    | PlayInit                                      // PLAY_INIT event fired
    | SessionStarted                                // receiver.startSession
    | PlayDisconnect                                // PLAY_DISCONNECT event fired
    | SessionEnded                                  // receiver.endSession

  /**
   * The superclass and host operations the addon calls and this model leaves
   * abstract: the registration-packet encoder (null is `None`) and the host's
   * test for the play protocol's reserved channels.
   */
  datatype HostOps = HostOps(createRegistrationPacket: set<Identifier> -> Option<Payload>,
                             isReservedPlayChannel: Identifier -> bool)

  /**
   * One registration of a channel handler. `accepted` is the superclass's own
   * verdict on a channel that is not reserved (false for a duplicate).
   */
  datatype Registration = Registration(channel: Identifier, accepted: bool)

  /** The superclass stores a registration: it accepts it and the channel is not reserved. */
  predicate Stored(channel: Identifier, accepted: bool, host: HostOps) {
    accepted && !host.isReservedPlayChannel(channel)
  }

  /** What the addon itself keeps: the send flag and everything it has done so far. */
  datatype AddonState = AddonState(canSendPackets: bool, trace: seq<Action>)

  /** The state right after construction: packets may not be sent yet. */
  function Initial(): AddonState {
    AddonState(false, [PendingChannelsRegistered])
  }

  /** The packets one announcement sends on `control`: none when the encoder returns null. */
  function Announcement(control: Identifier, buf: Option<Payload>): seq<Action> {
    if buf.Some? then [Sent(control, buf.value)] else []
  }

  /** `handleRegistration` (on REGISTER_CHANNEL) and `handleUnregistration` (on UNREGISTER_CHANNEL). */
  function Announce(s: AddonState, control: Identifier, channel: Identifier,
                    host: HostOps): AddonState
  {
    if s.canSendPackets then
      s.(trace := s.trace + Announcement(control, host.createRegistrationPacket({channel})))
    else
      s
  }

  /**
   * `registerChannel` as far as this class sees it: a reserved channel or a
   * registration the superclass does not accept changes nothing; a stored one
   * is recorded and then the `handleRegistration` hook runs.
   */
  function Register(s: AddonState, channel: Identifier, accepted: bool, host: HostOps): (r: AddonState)
    ensures r.canSendPackets == s.canSendPackets
    ensures !Stored(channel, accepted, host) ==> r == s
    ensures Stored(channel, accepted, host) && !s.canSendPackets ==> r.trace == s.trace + [ChannelRegistered(channel)]
  {
    if Stored(channel, accepted, host) then
      Announce(s.(trace := s.trace + [ChannelRegistered(channel)]), REGISTER_CHANNEL, channel, host)
    else
      s
  }

  /** Registering the global handlers in order, as the loop in `onServerReady` does. */
  function RegisterAll(s: AddonState, globals: seq<Registration>, host: HostOps): (r: AddonState)
    ensures r.canSendPackets == s.canSendPackets
    ensures s.trace <= r.trace
    decreases |globals|
  {
    if globals == [] then s
    else
      var last := globals[|globals| - 1];
      Register(RegisterAll(s, globals[..|globals| - 1], host), last.channel, last.accepted, host)
  }

  /** `onServerReady`. */
  function ServerReady(s: AddonState, globals: seq<Registration>, host: HostOps): AddonState
  {
    var registered := RegisterAll(s, globals, host);
    AddonState(true, registered.trace + [RegistrationBatchSent, PlayInit, SessionStarted])
  }

  /** `invokeDisconnectEvent`. */
  function Disconnect(s: AddonState): AddonState {
    s.(trace := s.trace + [PlayDisconnect, SessionEnded])
  }

  /** The calls that change the addon's state. */
  datatype Op =
    | RegisterChannel(channel: Identifier, accepted: bool)
    | HandleRegistration(channel: Identifier)
    | HandleUnregistration(channel: Identifier)
    | OnServerReady(globals: seq<Registration>)
    | InvokeDisconnectEvent

  /** The calls that announce a single channel. */
  predicate Announcing(op: Op) {
    op.RegisterChannel? || op.HandleRegistration? || op.HandleUnregistration?
  }

  function Apply(s: AddonState, op: Op, host: HostOps): (r: AddonState)
    ensures r.canSendPackets == (s.canSendPackets || op.OnServerReady?)
    ensures s.trace <= r.trace
  {
    match op
    case RegisterChannel(c, accepted) => Register(s, c, accepted, host)
    case HandleRegistration(c) => Announce(s, REGISTER_CHANNEL, c, host)
    case HandleUnregistration(c) => Announce(s, UNREGISTER_CHANNEL, c, host)
    case OnServerReady(globals) => ServerReady(s, globals, host)
    case InvokeDisconnectEvent => Disconnect(s)
  }

  function Run(s: AddonState, ops: seq<Op>, host: HostOps): AddonState
    decreases |ops|
  {
    if ops == [] then s else Run(Apply(s, ops[0], host), ops[1..], host)
  }

  /** The individually sent packets of a trace, in order. */
  function Packets(t: seq<Action>): (r: seq<Action>)
    ensures forall a :: a in r ==> a.Sent?
    decreases |t|
  {
    if t == [] then []
    else (if t[0].Sent? then [t[0]] else []) + Packets(t[1..])
  }

  /** The trace entries of the stored registrations among `globals`, in order. */
  function Registrations(globals: seq<Registration>, host: HostOps): (r: seq<Action>)
    ensures forall a :: a in r ==> a.ChannelRegistered?
    ensures |r| <= |globals|
    decreases |globals|
  {
    if globals == [] then []
    else
      var last := globals[|globals| - 1];
      Registrations(globals[..|globals| - 1], host)
        + (if Stored(last.channel, last.accepted, host) then [ChannelRegistered(last.channel)] else [])
  }

  /** The packets one call announcing a single channel should send; other calls send none themselves. */
  function AnnouncedBy(op: Op, host: HostOps): seq<Action> {
    match op
    case RegisterChannel(c, accepted) =>
      if Stored(c, accepted, host) then Announcement(REGISTER_CHANNEL, host.createRegistrationPacket({c})) else []
    case HandleRegistration(c) => Announcement(REGISTER_CHANNEL, host.createRegistrationPacket({c}))
    case HandleUnregistration(c) => Announcement(UNREGISTER_CHANNEL, host.createRegistrationPacket({c}))
    case _ => []
  }

  /** The packets a series of single-channel announcements should send: one per stored call whose buffer is not null. */
  function Expected(ops: seq<Op>, host: HostOps): seq<Action>
    decreases |ops|
  {
    if ops == [] then []
    else AnnouncedBy(ops[0], host) + Expected(ops[1..], host)
  }

  lemma {:induction false} PacketsAppend(a: seq<Action>, b: seq<Action>)
    ensures Packets(a + b) == Packets(a) + Packets(b)
    decreases |a|
  {
    if a == [] {
      assert a + b == b;
    } else {
      var head := if a[0].Sent? then [a[0]] else [];
      assert (a + b)[0] == a[0];
      assert (a + b)[1..] == a[1..] + b;
      PacketsAppend(a[1..], b);
      calc {
        Packets(a + b);
        head + Packets(a[1..] + b);
        head + (Packets(a[1..]) + Packets(b));
        (head + Packets(a[1..])) + Packets(b);
        Packets(a) + Packets(b);
      }
    }
  }

  lemma {:induction false} NoPacketsWithoutSends(t: seq<Action>)
    requires forall a :: a in t ==> !a.Sent?
    ensures Packets(t) == []
    decreases |t|
  {
    if t != [] {
      NoPacketsWithoutSends(t[1..]);
    }
  }

  lemma {:induction false} RunAppend(s: AddonState, a: seq<Op>, b: seq<Op>,
                                     host: HostOps)
    ensures Run(s, a + b, host) == Run(Run(s, a, host), b, host)
    decreases |a|
  {
    if a == [] {
      assert a + b == b;
    } else {
      assert (a + b)[0] == a[0];
      assert (a + b)[1..] == a[1..] + b;
      RunAppend(Apply(s, a[0], host), a[1..], b, host);
    }
  }

  /** Before the server is ready, registering the global handlers only records the stored ones, in order. */
  lemma {:induction false} RegisterAllWhileClosed(s: AddonState, globals: seq<Registration>, host: HostOps)
    requires !s.canSendPackets
    ensures RegisterAll(s, globals, host) == s.(trace := s.trace + Registrations(globals, host))
    decreases |globals|
  {
    if globals != [] {
      RegisterAllWhileClosed(s, globals[..|globals| - 1], host);
    }
  }

  /**
   * `onServerReady` on an addon that cannot send yet: every global handler is
   * registered, then one batched registration goes out, then PLAY_INIT fires
   * and the session starts; afterwards packets can be sent.
   */
  lemma ServerReadyBatchesRegistrations(s: AddonState, globals: seq<Registration>,
                                        host: HostOps)
    requires !s.canSendPackets
    ensures ServerReady(s, globals, host)
            == AddonState(true, s.trace + Registrations(globals, host) + [RegistrationBatchSent, PlayInit, SessionStarted])
    ensures Packets(ServerReady(s, globals, host).trace) == Packets(s.trace)
  {
    RegisterAllWhileClosed(s, globals, host);
    var added := Registrations(globals, host) + [RegistrationBatchSent, PlayInit, SessionStarted];
    assert s.trace + Registrations(globals, host) + [RegistrationBatchSent, PlayInit, SessionStarted] == s.trace + added;
    NoPacketsWithoutSends(added);
    PacketsAppend(s.trace, added);
  }

  /** `canSendPackets` is true after a series of calls exactly when it was before or the server became ready. */
  lemma {:induction false} CanSendOnlyRises(s: AddonState, ops: seq<Op>,
                                            host: HostOps)
    ensures Run(s, ops, host).canSendPackets
            <==> s.canSendPackets || exists i :: 0 <= i < |ops| && ops[i].OnServerReady?
    decreases |ops|
  {
    if ops != [] {
      CanSendOnlyRises(Apply(s, ops[0], host), ops[1..], host);
      assert forall i :: 0 < i < |ops| ==> ops[i] == ops[1..][i - 1];
    }
  }

  /** A call other than `onServerReady` on an addon that cannot send yet sends nothing and keeps the flag down. */
  lemma ApplyWhileClosed(s: AddonState, op: Op, host: HostOps)
    requires !s.canSendPackets && !op.OnServerReady?
    ensures !Apply(s, op, host).canSendPackets
    ensures Packets(Apply(s, op, host).trace) == Packets(s.trace)
  {
    if op.RegisterChannel? && Stored(op.channel, op.accepted, host) {
      PacketsAppend(s.trace, [ChannelRegistered(op.channel)]);
    } else if op.InvokeDisconnectEvent? {
      PacketsAppend(s.trace, [PlayDisconnect, SessionEnded]);
    }
  }

  /** Registering reserved channels, whatever the superclass would say, never changes the addon, ready or not. */
  lemma {:induction false} ReservedRegistrationsChangeNothing(s: AddonState, ops: seq<Op>, host: HostOps)
    requires forall i :: 0 <= i < |ops| ==> ops[i].RegisterChannel? && host.isReservedPlayChannel(ops[i].channel)
    ensures Run(s, ops, host) == s
    decreases |ops|
  {
    if ops != [] {
      assert Apply(s, ops[0], host) == s;
      assert forall i :: 0 <= i < |ops[1..]| ==> ops[1..][i] == ops[i + 1];
      ReservedRegistrationsChangeNothing(s, ops[1..], host);
    }
  }

  /** Until the server is ready, no call sends an individual packet. */
  lemma {:induction false} NoPacketBeforeReady(s: AddonState, ops: seq<Op>,
                                               host: HostOps)
    requires !s.canSendPackets
    requires forall i :: 0 <= i < |ops| ==> !ops[i].OnServerReady?
    ensures !Run(s, ops, host).canSendPackets
    ensures Packets(Run(s, ops, host).trace) == Packets(s.trace)
    decreases |ops|
  {
    if ops != [] {
      ApplyWhileClosed(s, ops[0], host);
      assert forall i :: 0 <= i < |ops[1..]| ==> ops[1..][i] == ops[i + 1];
      NoPacketBeforeReady(Apply(s, ops[0], host), ops[1..], host);
    }
  }

  /** A single-channel announcement on an addon that can send sends exactly its own packet. */
  lemma ApplyWhileOpen(s: AddonState, op: Op, host: HostOps)
    requires s.canSendPackets && Announcing(op)
    ensures Apply(s, op, host).canSendPackets
    ensures Packets(Apply(s, op, host).trace) == Packets(s.trace) + AnnouncedBy(op, host)
  {
    var sent := AnnouncedBy(op, host);
    assert Packets(sent) == sent by {
      if sent != [] {
        assert sent[1..] == [];
      }
    }
    if op.RegisterChannel? && !Stored(op.channel, op.accepted, host) {
      assert sent == [];
    } else if op.RegisterChannel? {
      assert Apply(s, op, host).trace == s.trace + ([ChannelRegistered(op.channel)] + sent);
      PacketsAppend(s.trace, [ChannelRegistered(op.channel)] + sent);
      PacketsAppend([ChannelRegistered(op.channel)], sent);
    } else {
      PacketsAppend(s.trace, sent);
    }
  }

  /** Once the server is ready, each single-channel announcement sends its own packet, in call order. */
  lemma {:induction false} OnePacketPerAnnouncement(s: AddonState, ops: seq<Op>,
                                                    host: HostOps)
    requires s.canSendPackets
    requires forall i :: 0 <= i < |ops| ==> Announcing(ops[i])
    ensures Run(s, ops, host).canSendPackets
    ensures Packets(Run(s, ops, host).trace) == Packets(s.trace) + Expected(ops, host)
    decreases |ops|
  {
    if ops != [] {
      var next := Apply(s, ops[0], host);
      ApplyWhileOpen(s, ops[0], host);
      assert forall i :: 0 <= i < |ops[1..]| ==> ops[1..][i] == ops[i + 1];
      OnePacketPerAnnouncement(next, ops[1..], host);
      assert Packets(s.trace) + AnnouncedBy(ops[0], host) + Expected(ops[1..], host)
             == Packets(s.trace) + Expected(ops, host);
    }
  }

  /**
   * A whole connection: whatever happens before the server is ready sends no
   * individual packet; afterwards exactly the announcements made then go out.
   */
  lemma ConnectionSendsOnlyAfterReady(pre: seq<Op>, globals: seq<Registration>, post: seq<Op>,
                                      host: HostOps)
    requires forall i :: 0 <= i < |pre| ==> !pre[i].OnServerReady?
    requires forall i :: 0 <= i < |post| ==> Announcing(post[i])
    ensures Run(Initial(), pre + [OnServerReady(globals)] + post, host).canSendPackets
    ensures Packets(Run(Initial(), pre + [OnServerReady(globals)] + post, host).trace)
            == Expected(post, host)
  {
    var s1 := Run(Initial(), pre, host);
    RunAppend(Initial(), pre + [OnServerReady(globals)], post, host);
    RunAppend(Initial(), pre, [OnServerReady(globals)], host);
    NoPacketBeforeReady(Initial(), pre, host);
    NoPacketsWithoutSends(Initial().trace);
    var s2 := Run(s1, [OnServerReady(globals)], host);
    assert s2 == ServerReady(s1, globals, host);
    ServerReadyBatchesRegistrations(s1, globals, host);
    OnePacketPerAnnouncement(s2, post, host);
  }

  /** A packet buffer; released once its packet has been handled. */
  class PacketByteBuf {
    const data: Payload
    var released: bool

    constructor (data: Payload)
      ensures this.data == data && !released
    {
      this.data := data;
      released := false;
    }

    method Release()
      modifies this
      ensures released
    {
      released := true;
    }
  }

  /** A received custom-payload packet: its channel and its buffer. */
  datatype CustomPayloadS2CPacket = CustomPayloadS2CPacket(channel: Identifier, data: PacketByteBuf)

  /**
   * `ClientPlayNetworkAddon`. The superclass and host operations it relies on
   * are given at construction: `createRegistrationPacket` (which may return
   * null), the channel dispatcher `handleChannel`, and the host's
   * reserved-channel test `isReservedPlayChannel`.
   */
  class ClientPlayNetworkAddon {
    const createRegistrationPacket: set<Identifier> -> Option<Payload>
    const handleChannel: (Identifier, Payload) -> Outcome<bool>
    const isReservedPlayChannel: Identifier -> bool
    var canSendPackets: bool
    var trace: seq<Action>

    function State(): AddonState
      reads this
    {
      AddonState(canSendPackets, trace)
    }

    /** The abstract operations as the specification functions take them. */
    function Ops(): HostOps {
      HostOps(createRegistrationPacket, isReservedPlayChannel)
    }

    constructor (createRegistrationPacket: set<Identifier> -> Option<Payload>,
                 handleChannel: (Identifier, Payload) -> Outcome<bool>,
                 isReservedPlayChannel: Identifier -> bool)
      ensures this.createRegistrationPacket == createRegistrationPacket
      ensures this.handleChannel == handleChannel
      ensures this.isReservedPlayChannel == isReservedPlayChannel
      ensures State() == Initial() && !canSendPackets
    {
      this.createRegistrationPacket := createRegistrationPacket;
      this.handleChannel := handleChannel;
      this.isReservedPlayChannel := isReservedPlayChannel;
      canSendPackets := false;
      trace := [PendingChannelsRegistered];
    }

    /**
     * The superclass's `registerChannel`: reserved channels are refused, a
     * registration the superclass does not accept (`accepted` false) changes
     * nothing, and a stored one is recorded before the hook runs.
     */
    method RegisterChannel(channelName: Identifier, accepted: bool) returns (registered: bool)
      modifies this`trace
      ensures registered == Stored(channelName, accepted, Ops())
      ensures State() == Register(old(State()), channelName, accepted, Ops())
    {
      if IsReservedChannel(channelName) || !accepted {
        return false;
      }
      trace := trace + [ChannelRegistered(channelName)];
      HandleRegistration(channelName);
      return true;
    }

    /** The superclass's `sendChannelRegistrationPacket`. */
    method SendChannelRegistrationPacket()
      modifies this`trace
      ensures trace == old(trace) + [RegistrationBatchSent]
    {
      trace := trace + [RegistrationBatchSent];
    }

    /** The superclass's `sendPacket`. */
    method SendPacket(channelName: Identifier, buf: Payload)
      modifies this`trace
      ensures trace == old(trace) + [Sent(channelName, buf)]
    {
      trace := trace + [Sent(channelName, buf)];
    }

    method OnServerReady(globalHandlers: seq<Registration>)
      modifies this`canSendPackets, this`trace
      ensures State() == ServerReady(old(State()), globalHandlers, Ops())
      ensures canSendPackets
    {
      for i := 0 to |globalHandlers|
        invariant State() == RegisterAll(old(State()), globalHandlers[..i], Ops())
      {
        var _ := RegisterChannel(globalHandlers[i].channel, globalHandlers[i].accepted);
        assert globalHandlers[..i + 1][..i] == globalHandlers[..i];
      }
      assert globalHandlers[..|globalHandlers|] == globalHandlers;
      SendChannelRegistrationPacket();
      canSendPackets := true;
      trace := trace + [PlayInit];
      trace := trace + [SessionStarted];
    }

    /** `handle(CustomPayloadS2CPacket)`: dispatch, and release the buffer whether or not dispatch throws. */
    method Handle(packet: CustomPayloadS2CPacket) returns (r: Outcome<bool>)
      modifies packet.data
      ensures packet.data.released
      ensures r == handleChannel(packet.channel, packet.data.data)
    {
      r := handleChannel(packet.channel, packet.data.data);
      packet.data.Release();
    }

    method HandleRegistration(channelName: Identifier)
      modifies this`trace
      ensures State() == Announce(old(State()), REGISTER_CHANNEL, channelName, Ops())
      ensures !canSendPackets ==> trace == old(trace)
      ensures canSendPackets ==>
                trace == old(trace) + Announcement(REGISTER_CHANNEL, createRegistrationPacket({channelName}))
    {
      if canSendPackets {
        var buf := createRegistrationPacket({channelName});
        if buf.Some? {
          SendPacket(REGISTER_CHANNEL, buf.value);
        }
      }
    }

    method HandleUnregistration(channelName: Identifier)
      modifies this`trace
      ensures State() == Announce(old(State()), UNREGISTER_CHANNEL, channelName, Ops())
      ensures !canSendPackets ==> trace == old(trace)
      ensures canSendPackets ==>
                trace == old(trace) + Announcement(UNREGISTER_CHANNEL, createRegistrationPacket({channelName}))
    {
      if canSendPackets {
        var buf := createRegistrationPacket({channelName});
        if buf.Some? {
          SendPacket(UNREGISTER_CHANNEL, buf.value);
        }
      }
    }

    method InvokeDisconnectEvent()
      modifies this`trace
      ensures State() == Disconnect(old(State()))
    {
      trace := trace + [PlayDisconnect];
      trace := trace + [SessionEnded];
    }

    /** `isReservedChannel`: the host's test for the play protocol's reserved channels. */
    function IsReservedChannel(channelName: Identifier): (r: bool)
      ensures r == Ops().isReservedPlayChannel(channelName)
    {
      isReservedPlayChannel(channelName)
    }
  }
}
