/** CoAP packets as records, and the peers they travel to. */
module Packets {
  import U24
  import Wrappers

  /** The remote address, whatever the transport makes of it. */
  type Endpoint(==, !new)

  type MessageId = x: int | 0 <= x < 0x1_0000

  const ID_COUNT: int := 0x1_0000

  datatype MessageType = Confirmable | NonConfirmable | Acknowledgement | Reset

  datatype MessageClass = Empty | Request | Response | Reserved

  type Token = seq<U24.u8>

  datatype Packet = Packet(
    kind: MessageType,
    code: MessageClass,
    messageId: MessageId,
    token: Token,
    observe: Wrappers.Option<U24.u32>,
    payload: seq<U24.u8>
  )

  datatype MessageKey = MessageKey(messageId: MessageId, peer: Endpoint)

  /** The 16-bit `wrapping_add(1)`. */
  function NextId(id: MessageId): MessageId {
    (id + 1) % ID_COUNT
  }
}
