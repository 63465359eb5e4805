/**
 * The UAVCAN v1 CAN 2.0B identifier and tail-byte layout as the receive-error
 * test suite constructs it (tests/test_rxerr.cpp, lines 26-55).
 *
 * A 29-bit extended identifier carries:
 *   message:  priority 26..28, anonymous 24, subject ID 8..23, source 1..7, version 0
 *   service:  priority 26..28, service-not-message 25, request 24,
 *             service ID 15..23, destination 8..14, source 1..7, version 0
 * The last byte of every frame (the tail byte) carries:
 *   start 7, end 6, toggle 5, transfer ID 0..4.
 *
 * The encoders follow the test suite's independent CONSTRUCT_* macros: every
 * argument is first narrowed to the width of its C cast, then masked to the
 * width of its field and shifted into place, and the result is an unsigned
 * 32-bit word. The decoders are the shift-and-mask inverses.
 */
module CanId {

  /** The bus-level frame identifier: the 29-bit CAN identifier and the three
      format flags that the driver stores beside it (extended frame format,
      remote transmission request, error frame). */
  datatype FrameId = FrameId(can: bv32, eff: bool, rtr: bool, err: bool)

  const AnonymousBit: bv32 := 1 << 24
  const ServiceNotMessageBit: bv32 := 1 << 25
  const ProtocolVersionBit: bv32 := 1

  const PriorityMask: bv32 := 0x7 << 26
  const SubjectMask: bv32 := 0xFFFF << 8
  const SourceMask: bv32 := 0x7F << 1
  const ServiceMask: bv32 := 0x1FF << 15
  const DestinationMask: bv32 := 0x7F << 8
  const RequestMask: bv32 := 0x1 << 24

  /** Every bit an identifier may use: bits 0..28. */
  const IdentifierMask: bv32 := 0x1FFF_FFFF

  // ---------------------------------------------------------------------
  // Decoders

  function PriorityOf(id: bv32): bv8 { ((id >> 26) & 0x7) as bv8 }
  function SubjectOf(id: bv32): bv16 { ((id >> 8) & 0xFFFF) as bv16 }
  function SourceOf(id: bv32): bv8 { ((id >> 1) & 0x7F) as bv8 }
  function ServiceOf(id: bv32): bv16 { ((id >> 15) & 0x1FF) as bv16 }
  function DestinationOf(id: bv32): bv8 { ((id >> 8) & 0x7F) as bv8 }

  predicate IsService(id: bv32) { id & ServiceNotMessageBit != 0 }
  predicate IsRequest(id: bv32) { id & RequestMask != 0 }
  predicate IsAnonymous(id: bv32) { !IsService(id) && id & AnonymousBit != 0 }
  predicate HasVersionBit(id: bv32) { id & ProtocolVersionBit != 0 }

  // ---------------------------------------------------------------------
  // Field encoders (CONSTRUCT_PRIO, CONSTRUCT_SUBJECT_ID, ...)

  function PriorityField(prio: bv8): (f: bv32)
    ensures f & !PriorityMask == 0
    ensures PriorityOf(f) == prio & 0x7
  {
    ((prio as bv32) & 0x7) << 26
  }

  function SubjectField(subject: bv16): (f: bv32)
    ensures f & !SubjectMask == 0
    ensures SubjectOf(f) == subject
  {
    ((subject as bv32) & 0xFFFF) << 8
  }

  function SourceField(source: bv8): (f: bv32)
    ensures f & !SourceMask == 0
    ensures SourceOf(f) == source & 0x7F
  {
    ((source as bv32) & 0x7F) << 1
  }

  function ServiceField(service: bv16): (f: bv32)
    ensures f & !ServiceMask == 0
    ensures ServiceOf(f) == service & 0x1FF
  {
    ((service as bv32) & 0x1FF) << 15
  }

  function DestinationField(dest: bv8): (f: bv32)
    ensures f & !DestinationMask == 0
    ensures DestinationOf(f) == dest & 0x7F
  {
    ((dest as bv32) & 0x7F) << 8
  }

  function RequestField(request: bv8): (f: bv32)
    ensures f & !RequestMask == 0
    ensures IsRequest(f) <==> request & 1 == 1
  {
    ((request as bv32) & 0x1) << 24
  }

  /** The message fields occupy pairwise disjoint bit ranges, and together
      with the anonymous, service-not-message and version bits they cover
      exactly the 29 identifier bits. */
  lemma MessageLayoutDisjoint()
    ensures PriorityMask & SubjectMask == 0 && PriorityMask & SourceMask == 0
    ensures SubjectMask & SourceMask == 0
    ensures (PriorityMask | SubjectMask | SourceMask) & (AnonymousBit | ServiceNotMessageBit | ProtocolVersionBit) == 0
    ensures AnonymousBit & ServiceNotMessageBit == 0
    ensures PriorityMask | ServiceNotMessageBit | AnonymousBit | SubjectMask | SourceMask | ProtocolVersionBit == IdentifierMask
  {
  }

  /** The service fields occupy pairwise disjoint bit ranges and together
      with the service-not-message and version bits cover the 29 bits. */
  lemma ServiceLayoutDisjoint()
    ensures PriorityMask & (RequestMask | ServiceMask | DestinationMask | SourceMask) == 0
    ensures RequestMask & (ServiceMask | DestinationMask | SourceMask) == 0
    ensures ServiceMask & (DestinationMask | SourceMask) == 0
    ensures DestinationMask & SourceMask == 0
    ensures (PriorityMask | RequestMask | ServiceMask | DestinationMask | SourceMask) & (ServiceNotMessageBit | ProtocolVersionBit) == 0
    ensures PriorityMask | ServiceNotMessageBit | RequestMask | ServiceMask | DestinationMask | SourceMask | ProtocolVersionBit == IdentifierMask
  {
  }

  // ---------------------------------------------------------------------
  // Identifier encoders (CONSTRUCT_MSG_ID, CONSTRUCT_ANON_MSG_ID, CONSTRUCT_SVC_ID)

  /** A message identifier in extended frame format: every field round-trips
      through its decoder, the version bit is set and the service and
      anonymous bits are clear. */
  function MessageId(prio: bv8, subject: bv16, source: bv8): (id: FrameId)
    ensures id.eff && !id.rtr && !id.err
    ensures id.can & !IdentifierMask == 0
    ensures HasVersionBit(id.can) && !IsService(id.can) && !IsAnonymous(id.can)
    ensures PriorityOf(id.can) == prio & 0x7
    ensures SubjectOf(id.can) == subject
    ensures SourceOf(id.can) == source & 0x7F
  {
    FrameId(PriorityField(prio) | SubjectField(subject) | SourceField(source) | ProtocolVersionBit,
            true, false, false)
  }

  /** The anonymous message identifier: bit 24 set, every other field as in
      the plain message identifier. */
  function AnonymousMessageId(prio: bv8, subject: bv16, source: bv8): (id: FrameId)
    ensures id.eff && !id.rtr && !id.err
    ensures id.can & !IdentifierMask == 0
    ensures IsAnonymous(id.can) && HasVersionBit(id.can)
    ensures PriorityOf(id.can) == prio & 0x7
    ensures SubjectOf(id.can) == subject
    ensures SourceOf(id.can) == source & 0x7F
  {
    var m := MessageId(prio, subject, source);
    AnonymousBitKeepsFields(m.can);
    AnonymousBitInRange(m.can);
    FrameId(AnonymousBit | m.can, true, false, false)
  }

  /** Setting bit 24 leaves the priority, subject and source fields alone. */
  lemma AnonymousBitKeepsFields(x: bv32)
    ensures PriorityOf(AnonymousBit | x) == PriorityOf(x)
    ensures SubjectOf(AnonymousBit | x) == SubjectOf(x)
    ensures SourceOf(AnonymousBit | x) == SourceOf(x)
    ensures (AnonymousBit | x) & ProtocolVersionBit == x & ProtocolVersionBit
    ensures (AnonymousBit | x) & ServiceNotMessageBit == x & ServiceNotMessageBit
  {
  }

  /** Setting bit 24 keeps a 29-bit word within 29 bits and sets bit 24. */
  lemma AnonymousBitInRange(x: bv32)
    requires x & !IdentifierMask == 0
    ensures (AnonymousBit | x) & !IdentifierMask == 0
    ensures (AnonymousBit | x) & AnonymousBit != 0
  {
  }

  /** The anonymous variant differs from the plain message identifier in bit
      24 alone, which the plain identifier leaves clear. */
  lemma AnonymousDiffersOnlyInBit24(prio: bv8, subject: bv16, source: bv8)
    ensures MessageId(prio, subject, source).can & AnonymousBit == 0
    ensures AnonymousMessageId(prio, subject, source).can & !AnonymousBit == MessageId(prio, subject, source).can
  {
  }

  /** A service identifier in extended frame format: every field round-trips
      through its decoder, the version and service-not-message bits are set. */
  function ServiceId(prio: bv8, service: bv16, request: bv8, dest: bv8, source: bv8): (id: FrameId)
    ensures id.eff && !id.rtr && !id.err
    ensures id.can & !IdentifierMask == 0
    ensures HasVersionBit(id.can) && IsService(id.can)
    ensures IsRequest(id.can) <==> request & 1 == 1
    ensures PriorityOf(id.can) == prio & 0x7
    ensures ServiceOf(id.can) == service & 0x1FF
    ensures DestinationOf(id.can) == dest & 0x7F
    ensures SourceOf(id.can) == source & 0x7F
  {
    FrameId(PriorityField(prio) | ServiceNotMessageBit | RequestField(request) | ServiceField(service)
              | DestinationField(dest) | SourceField(source) | ProtocolVersionBit,
            true, false, false)
  }

  /** Every well-formed message identifier is produced by the encoder from
      its own decoded fields (with bit 24 for the anonymous variant). */
  lemma MessageIdComplete(id: bv32)
    requires id & !IdentifierMask == 0 && HasVersionBit(id) && !IsService(id)
    ensures !IsAnonymous(id) ==> MessageId(PriorityOf(id), SubjectOf(id), SourceOf(id)).can == id
    ensures IsAnonymous(id) ==> AnonymousMessageId(PriorityOf(id), SubjectOf(id), SourceOf(id)).can == id
  {
  }

  /** Every well-formed service identifier is produced by the encoder from
      its own decoded fields. */
  lemma ServiceIdComplete(id: bv32)
    requires id & !IdentifierMask == 0 && HasVersionBit(id) && IsService(id)
    ensures ServiceId(PriorityOf(id), ServiceOf(id), if IsRequest(id) then 1 else 0,
                      DestinationOf(id), SourceOf(id)).can == id
  {
  }

  // ---------------------------------------------------------------------
  // Tail byte (CONSTRUCT_START, CONSTRUCT_END, CONSTRUCT_TOGGLE, CONSTRUCT_TID, CONSTRUCT_TAIL_BYTE)

  datatype Tail = Tail(start: bool, end: bool, toggle: bool, transferId: bv8)

  /** Decodes the flags and the 5-bit transfer ID of a tail byte. */
  function DecodeTail(b: bv8): (t: Tail)
    ensures t.transferId < 32
  {
    Tail(b & 0x80 != 0, b & 0x40 != 0, b & 0x20 != 0, b & 0x1F)
  }

  /** The start flag, start&1, in bit 7. */
  function StartBit(start: bv8): (f: bv32)
    ensures f & !0x80 == 0
    ensures DecodeTail(f as bv8).start <==> start & 1 == 1
  {
    ((start as bv32) & 0x1) << 7
  }

  /** The end flag, end&1, in bit 6. */
  function EndBit(end: bv8): (f: bv32)
    ensures f & !0x40 == 0
    ensures DecodeTail(f as bv8).end <==> end & 1 == 1
  {
    ((end as bv32) & 0x1) << 6
  }

  /** The toggle, toggle&1, in bit 5. */
  function ToggleBit(toggle: bv8): (f: bv32)
    ensures f & !0x20 == 0
    ensures DecodeTail(f as bv8).toggle <==> toggle & 1 == 1
  {
    ((toggle as bv32) & 0x1) << 5
  }

  /** The transfer ID, tid&0x1F, in bits 0-4. */
  function TransferIdBits(tid: bv8): (f: bv32)
    ensures f & !0x1F == 0
    ensures DecodeTail(f as bv8).transferId == tid & 0x1F
  {
    (tid as bv32) & 0x1F
  }

  /** The tail byte: the unsigned word it is computed in fits in one byte, and
      decoding the byte recovers all four masked fields. */
  function TailByte(start: bv8, end: bv8, toggle: bv8, tid: bv8): (w: bv32)
    ensures w < 0x100
    ensures DecodeTail(w as bv8) == Tail(start & 1 == 1, end & 1 == 1, toggle & 1 == 1, tid & 0x1F)
  {
    StartBit(start) | EndBit(end) | ToggleBit(toggle) | TransferIdBits(tid)
  }

  function Flag(b: bool): bv8 { if b then 1 else 0 }

  /** Every byte is the tail byte of its own decoded fields. */
  lemma TailByteComplete(b: bv8)
    ensures var t := DecodeTail(b);
            TailByte(Flag(t.start), Flag(t.end), Flag(t.toggle), t.transferId) == b as bv32
  {
  }
}
