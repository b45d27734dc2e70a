/** The table of unanswered sends (retransmission_manager.rs, `RetransmissionManager`): first as
    a value with the two operations on it, then as the object that updates itself in place. */
module RetransmissionManager {
  import opened Packets
  import opened SendLoop
  import opened Watch

  type ReplyChannel = WatchState<ReplyEvent>

  /** `channels` holds the reply channel of every send ever started, in order of start; the table
      leads from a key to the number of the send that is stored under it. */
  datatype Manager = Manager(nextId: MessageId, table: map<MessageKey, nat>, channels: seq<ReplyChannel>)

  predicate WellFormed(m: Manager) {
    forall key :: key in m.table ==> m.table[key] < |m.channels|
  }

  function Fresh(nextId: MessageId): Manager {
    Manager(nextId, map[], [])
  }

  function PublishReply(channels: seq<ReplyChannel>, send: nat, event: ReplyEvent): seq<ReplyChannel>
    requires send < |channels|
  {
    channels[send := Publish(channels[send], event)]
  }

  function NextKey(m: Manager, peer: Endpoint): MessageKey {
    MessageKey(m.nextId, peer)
  }

  /** Allocates the next ID and stores a new reply channel with one receiver.  A send whose key is
      taken over learns of it. */
  function StartSend(m: Manager, peer: Endpoint): (r: Manager)
    requires WellFormed(m)
    ensures WellFormed(r)
  {
    var key := NextKey(m, peer);
    var channels := if key in m.table then PublishReply(m.channels, m.table[key], KeyReused) else m.channels;
    Manager(NextId(m.nextId), m.table[key := |m.channels|], channels + [WatchState(NoReplyYet, 0, 1)])
  }

  /** The packet as it goes out: Confirmable, with the allocated ID. */
  function Prepared(m: Manager, packet: Packet): Packet {
    packet.(kind := Confirmable, messageId := m.nextId)
  }

  function ReplyKey(packet: Packet, peer: Endpoint): MessageKey {
    MessageKey(packet.messageId, peer)
  }

  predicate IsReply(packet: Packet) {
    packet.kind == Acknowledgement || packet.kind == Reset
  }

  predicate Matches(m: Manager, packet: Packet, peer: Endpoint) {
    IsReply(packet) && ReplyKey(packet, peer) in m.table
  }

  function TakeReply(m: Manager, packet: Packet, peer: Endpoint): (r: Manager)
    requires WellFormed(m)
    ensures WellFormed(r)
  {
    var key := ReplyKey(packet, peer);
    if Matches(m, packet, peer)
    then m.(table := m.table - {key}, channels := PublishReply(m.channels, m.table[key], PeerResponse(packet.kind)))
    else m
  }

  /** Taken, given back, or the panic of the `unwrap` on a channel whose receiver is gone. */
  datatype ReplyOutcome = Accepted | HandedBack(packet: Packet) | Panicked

  function ReplyOutcomeOf(m: Manager, packet: Packet, peer: Endpoint): ReplyOutcome
    requires WellFormed(m)
  {
    if !Matches(m, packet, peer) then HandedBack(packet)
    else if m.channels[m.table[ReplyKey(packet, peer)]].receivers > 0 then Accepted
    else Panicked
  }

  /** A new send: the next ID is allocated, its key leads to a new empty channel with one receiver, and
      whoever was stored under it and still listens learns of it.  Nothing else changes. */
  ghost predicate Starts(before: Manager, after: Manager, peer: Endpoint) {
    var key, n := MessageKey(before.nextId, peer), |before.channels|;
    && after.nextId == (if before.nextId == 0xffff then 0 else before.nextId + 1)
    && key in after.table && after.table[key] == n
    && |after.channels| == n + 1 && after.channels[n] == WatchState(NoReplyYet, 0, 1)
    && (forall other :: other != key ==> (other in after.table <==> other in before.table))
    && (forall other :: other != key && other in before.table ==> after.table[other] == before.table[other])
    && (forall i :: 0 <= i < n ==>
          if key in before.table && before.table[key] == i && before.channels[i].receivers > 0
          then after.channels[i] == WatchState(KeyReused, before.channels[i].version + 1, before.channels[i].receivers)
          else after.channels[i] == before.channels[i])
  }

  lemma StartSendEffect(m: Manager, peer: Endpoint)
    requires WellFormed(m)
    ensures Starts(m, StartSend(m, peer), peer)
  {
  }

  /** A reply: an Ack or Reset whose key is stored takes the entry away and, if the send still listens,
      reaches its channel.  Anything else changes nothing. */
  ghost predicate Takes(before: Manager, after: Manager, packet: Packet, peer: Endpoint) {
    var key := MessageKey(packet.messageId, peer);
    var taken := packet.kind in {Acknowledgement, Reset} && key in before.table;
    && after.nextId == before.nextId
    && after.table == (if taken then before.table - {key} else before.table)
    && |after.channels| == |before.channels|
    && (forall i :: 0 <= i < |before.channels| ==>
          if taken && before.table[key] == i && before.channels[i].receivers > 0
          then after.channels[i] ==
               WatchState(PeerResponse(packet.kind), before.channels[i].version + 1, before.channels[i].receivers)
          else after.channels[i] == before.channels[i])
  }

  lemma TakeReplyEffect(m: Manager, packet: Packet, peer: Endpoint)
    requires WellFormed(m)
    ensures Takes(m, TakeReply(m, packet, peer), packet, peer)
  {
  }

  /** A send that returns drops its receiver. */
  function Abandon(m: Manager, send: nat): (r: Manager)
    requires WellFormed(m) && send < |m.channels|
    ensures WellFormed(r)
  {
    m.(channels := m.channels[send := DropReceiver(m.channels[send])])
  }

  /** What `send_reliably` returns. */
  datatype SendHandle = SendHandle(
    packet: Packet,
    peer: Endpoint,
    parameters: Parameters,
    replies: WatchSender<ReplyEvent>
  )

  ghost function States(channels: seq<WatchSender<ReplyEvent>>): (r: seq<ReplyChannel>)
    reads channels
    ensures |r| == |channels|
    ensures forall i :: 0 <= i < |r| ==> r[i] == channels[i].State()
  {
    seq(|channels|, i requires 0 <= i < |channels| reads channels => channels[i].State())
  }

  class RetransmissionManager {
    var nextMessageId: MessageId
    var unacknowledgedMessages: map<MessageKey, WatchSender<ReplyEvent>>
    const parameters: Parameters

    /** Every channel ever created, in order, and the number of each one stored. */
    ghost var channels: seq<WatchSender<ReplyEvent>>
    ghost var numbers: map<MessageKey, nat>

    ghost predicate Valid()
      reads this
    {
      && numbers.Keys == unacknowledgedMessages.Keys
      && (forall key :: key in numbers ==>
            numbers[key] < |channels| && channels[numbers[key]] == unacknowledgedMessages[key])
      && (forall i, j :: 0 <= i < j < |channels| ==> channels[i] != channels[j])
    }

    ghost function View(): (m: Manager)
      reads this, channels
      requires Valid()
      ensures WellFormed(m)
    {
      Manager(nextMessageId, numbers, States(channels))
    }

    constructor (parameters: Parameters, seed: MessageId)
      ensures Valid() && View() == Fresh(seed) && channels == [] && this.parameters == parameters
    {
      this.parameters := parameters;
      nextMessageId, unacknowledgedMessages := seed, map[];
      channels, numbers := [], map[];
    }

    method MaybeHandleReply(packet: Packet, peer: Endpoint) returns (outcome: ReplyOutcome)
      requires Valid()
      modifies this, channels
      ensures Valid() && channels == old(channels)
      ensures outcome == old(ReplyOutcomeOf(View(), packet, peer))
      ensures View() == old(TakeReply(View(), packet, peer))
      ensures nextMessageId == old(nextMessageId)
      ensures var key := MessageKey(packet.messageId, peer);
              if packet.kind in {Acknowledgement, Reset} && key in old(unacknowledgedMessages) then
                && unacknowledgedMessages == old(unacknowledgedMessages) - {key}
                && outcome == if old(unacknowledgedMessages[key].receivers) > 0 then Accepted else Panicked
              else outcome == HandedBack(packet) && unacknowledgedMessages == old(unacknowledgedMessages)
      ensures Takes(old(View()), View(), packet, peer)
    {
      TakeReplyEffect(View(), packet, peer);
      if packet.kind != Acknowledgement && packet.kind != Reset {
        return HandedBack(packet);
      }
      var key := MessageKey(packet.messageId, peer);
      if key !in unacknowledgedMessages {
        return HandedBack(packet);
      }
      var replies := unacknowledgedMessages[key];
      unacknowledgedMessages := unacknowledgedMessages - {key};
      numbers := numbers - {key};
      var delivered := replies.Send(PeerResponse(packet.kind));
      return if delivered then Accepted else Panicked;
    }

    /** Tells a send that its key was taken over. */
    method Displace(existing: WatchSender<ReplyEvent>, ghost number: nat)
      requires Valid() && number < |channels| && channels[number] == existing
      modifies existing
      ensures Valid() && States(channels) == PublishReply(old(States(channels)), number, KeyReused)
    {
      var _ := existing.Send(KeyReused);
    }

    method Store(key: MessageKey, replies: WatchSender<ReplyEvent>)
      requires Valid() && replies !in channels
      modifies this
      ensures Valid() && nextMessageId == old(nextMessageId)
      ensures channels == old(channels) + [replies] && numbers == old(numbers)[key := |old(channels)|]
      ensures unacknowledgedMessages == old(unacknowledgedMessages)[key := replies]
    {
      unacknowledgedMessages := unacknowledgedMessages[key := replies];
      numbers := numbers[key := |channels|];
      channels := channels + [replies];
    }

    method DisplaceAt(key: MessageKey)
      requires Valid()
      modifies channels
      ensures Valid()
      ensures States(channels) == if key in numbers then PublishReply(old(States(channels)), numbers[key], KeyReused)
                                  else old(States(channels))
    {
      if key in unacknowledgedMessages {
        Displace(unacknowledgedMessages[key], numbers[key]);
      }
    }

    /** A new reply channel with one receiver. */
    method StoreNew(key: MessageKey) returns (replies: WatchSender<ReplyEvent>)
      requires Valid()
      modifies this
      ensures Valid() && fresh(replies) && nextMessageId == old(nextMessageId)
      ensures channels == old(channels) + [replies] && numbers == old(numbers)[key := |old(channels)|]
      ensures unacknowledgedMessages == old(unacknowledgedMessages)[key := replies]
      ensures replies.State() == WatchState(NoReplyYet, 0, 1)
      ensures States(channels) == old(States(channels)) + [WatchState(NoReplyYet, 0, 1)]
    {
      ghost var states := States(channels);
      replies := new WatchSender(NoReplyYet, 1);
      Store(key, replies);
      assert States(channels) == states + [replies.State()];
    }

    method SendReliably(packet: Packet, peer: Endpoint) returns (handle: SendHandle)
      requires Valid()
      modifies this, channels
      ensures Valid() && fresh(handle.replies) && channels == old(channels) + [handle.replies]
      ensures handle.packet == old(Prepared(View(), packet)) && handle.peer == peer && handle.parameters == parameters
      ensures View() == old(StartSend(View(), peer))
      ensures handle.packet == packet.(kind := Confirmable, messageId := old(nextMessageId))
      ensures nextMessageId == if old(nextMessageId) == 0xffff then 0 else old(nextMessageId) + 1
      ensures handle.replies.State() == WatchState(NoReplyYet, 0, 1)
      ensures unacknowledgedMessages ==
              old(unacknowledgedMessages)[MessageKey(old(nextMessageId), peer) := handle.replies]
      ensures Starts(old(View()), View(), peer)
    {
      StartSendEffect(View(), peer);
      var outgoing := packet.(messageId := nextMessageId, kind := Confirmable);
      nextMessageId := NextId(nextMessageId);
      var key := MessageKey(outgoing.messageId, peer);
      DisplaceAt(key);
      var replies := StoreNew(key);
      handle := SendHandle(outgoing, peer, parameters, replies);
    }
  }
}
