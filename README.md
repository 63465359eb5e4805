# libcanard receive-error model

A Dafny model of the receive side of libcanard as its receive-error test suite
(`tests/test_rxerr.cpp`) exercises it. The model has three parts.

- **Identifier and tail-byte codec** (`can_id.dfy`, module `CanId`). These are the test
  suite's independent `CONSTRUCT_*` macros for the UAVCAN v1 CAN identifier
  layout, as tests/test_rxerr.cpp:26-55 constructs it, and for the per-frame
  tail byte. They are written as `bv32` functions with
  shift-and-mask decoders. The codec proves round trips in both directions and
  that the fields occupy disjoint bit ranges.
- **Frame admission** (`reassembly.dfy`, module `Reassembly`). `Admit` is a pure
  transition from the receiver state and one frame to a return code and the
  next state. Every frame meets four gates in this order: structure, address,
  acceptance filter, session. The lemmas state what each return code means and
  which state each outcome leaves behind. They also prove that the pool
  accounting stays exact.
- **The instance** (`rx_instance.dfy`, module `RxInstance`). `Instance` is a class
  holding the pool's free-block count, the optional local node ID, the
  acceptance predicate and the session map. `HandleRxFrame` walks the gates
  imperatively and is proved equal to `Admit`.

`rxerr_scenarios.dfy` (module `RxErrScenarios`) replays each `TEST_CASE` and
proves that it yields the return codes the test requires. It does this for
every value of the frame bytes the test never writes. It also does it for every
session timeout the test admits.

### Modelling choices

- The frame format flags (extended, remote, error) are booleans next to the
  29-bit identifier. Their numeric values are defined outside the tests.
- The protocol-version bit (bit 0) is not examined on receipt. The frame with
  identifier 0 and extended format at tests/test_rxerr.cpp:122-126 must be
  accepted, although its version bit is clear.
- The acceptance callback `shouldAcceptTransfer` (tests/test_rxerr.cpp:68-78) is a
  function-valued field of the instance. The scenario swaps that field where the test
  flips `g_should_accept`.
- The pool is a count of free blocks. A pool of `n` bytes has `n / 32`
  blocks, so 1024 bytes give 32 blocks and 0 bytes give none. A session holding `k` payload
  bytes owns `ceil(k / 32)` blocks. A single-frame transfer holds no block, so it
  succeeds over an empty pool.
- Elapsed time is unsigned 64-bit wrapping subtraction. A continuation stamped 0
  after a frame stamped 1 therefore reads as almost 2^64 later and expires
  (tests/test_rxerr.cpp:306-311).
- The session timeout is a constructor parameter. The timeout scenario only
  needs it to be below 3999999 (tests/test_rxerr.cpp:296).
- Session-stage order for a continuation frame:
  1. missing session
  2. expiry
  3. transfer ID
  4. toggle
  5. length
  6. memory

  The tests fix expiry before the transfer-ID check (320-326) and toggle before length (244-249).
  No timely frame in the tests fails both the transfer-ID and the toggle check
  (244-256), so the tests do not fix their order. The model checks the
  transfer ID first.
- A start frame sets the expected toggle to the complement of its own toggle,
  and the frame's toggle is not otherwise checked. The out-of-memory start frame
  carries toggle 0 (tests/test_rxerr.cpp:376).
- A frame that does not end its transfer must be a full 8-byte frame. The
  short start frames of 2 and 3 bytes (tests/test_rxerr.cpp:347-359) are refused
  under this rule.
- A refused frame leaves the state exactly as it was, with one exception. An expired
  session is dropped and its blocks return to the pool. Running out of memory also
  leaves the session unchanged.
- The frame at tests/test_rxerr.cpp:321-322 has its tail byte written twice. The
  second write gives toggle 1 and transfer ID 3, so the frame is wrong in both
  toggle and transfer ID. It still misses the start because the session has expired.

## Model

| member | source | states |
|---|---|---|
| CanId.PriorityField | tests/test_rxerr.cpp:27 | the priority, masked to 3 bits, lies in bits 26-28 and decodes back |
| CanId.SubjectField | tests/test_rxerr.cpp:28 | the 16-bit subject ID lies in bits 8-23 and decodes back |
| CanId.SourceField | tests/test_rxerr.cpp:29 | the source, masked to 7 bits, lies in bits 1-7 and decodes back |
| CanId.ServiceField | tests/test_rxerr.cpp:30 | the service ID, masked to 9 bits, lies in bits 15-23 and decodes back |
| CanId.DestinationField | tests/test_rxerr.cpp:31 | the destination, masked to 7 bits, lies in bits 8-14 and decodes back |
| CanId.RequestField | tests/test_rxerr.cpp:32 | only bit 24 can be set, and it is set exactly when the request argument is odd |
| CanId.MessageLayoutDisjoint | tests/test_rxerr.cpp:27-43 | the message fields and flag bits are pairwise disjoint and together cover bits 0-28 |
| CanId.ServiceLayoutDisjoint | tests/test_rxerr.cpp:27-47 | the service fields and flag bits are pairwise disjoint and together cover bits 0-28 |
| CanId.MessageId | tests/test_rxerr.cpp:38-40 | extended format with no RTR or ERR flag; fits in 29 bits; version bit set; service and anonymous bits clear; every field decodes back |
| CanId.AnonymousMessageId | tests/test_rxerr.cpp:42-43 | the anonymous bit and version bit are set, and priority, subject and source decode as for the plain message |
| CanId.AnonymousDiffersOnlyInBit24 | tests/test_rxerr.cpp:34-43 | the plain message identifier has bit 24 clear, and the anonymous one equals it once bit 24 is cleared |
| CanId.ServiceId | tests/test_rxerr.cpp:45-47 | extended format; fits in 29 bits; version and service bits set; request, service ID, destination, source and priority decode back |
| CanId.MessageIdComplete | tests/test_rxerr.cpp:38-43 | every well-formed message identifier is the encoding of its own decoded fields |
| CanId.ServiceIdComplete | tests/test_rxerr.cpp:45-47 | every well-formed service identifier is the encoding of its own decoded fields |
| CanId.StartBit | tests/test_rxerr.cpp:49 | start&1 lies in bit 7 alone and decodes as the tail byte's start flag |
| CanId.EndBit | tests/test_rxerr.cpp:50 | end&1 lies in bit 6 alone and decodes as the tail byte's end flag |
| CanId.ToggleBit | tests/test_rxerr.cpp:51 | toggle&1 lies in bit 5 alone and decodes as the tail byte's toggle |
| CanId.TransferIdBits | tests/test_rxerr.cpp:52 | tid&0x1F lies in bits 0-4 alone and decodes as the tail byte's transfer ID |
| CanId.DecodeTail | tests/test_rxerr.cpp:49-55 | the decoded transfer ID is below 32 |
| CanId.TailByte | tests/test_rxerr.cpp:54-55 | the tail byte fits in one byte, and decoding it gives back start&1, end&1, toggle&1 and tid&0x1F |
| CanId.TailByteComplete | tests/test_rxerr.cpp:49-55 | every byte is the tail byte of its own decoded fields |
| Reassembly.Elapsed | tests/test_rxerr.cpp:306-311 | elapsed time is `now - last` when `now >= last`, and `2^64 - (last - now)` otherwise |
| Reassembly.Admit | tests/test_rxerr.cpp:80-381 | every refusal except missed start leaves the state as it was; a missed start only drops the frame's own session; other sessions are untouched; the delivered log grows by at most one transfer, of the frame's key, and only on OK |
| Reassembly.AdmitPreservesPool | tests/test_rxerr.cpp:362-380 | free blocks plus blocks owned by sessions always equal the pool capacity |
| Reassembly.IncompatibleIff | tests/test_rxerr.cpp:98-126 | INCOMPATIBLE_PACKET exactly when the extended flag is missing, RTR or ERR is set, or data_len is 0 |
| Reassembly.WrongAddressIff | tests/test_rxerr.cpp:149-160 | WRONG_ADDRESS exactly for a well-formed service frame whose destination differs from the set local node ID |
| Reassembly.NotWantedIff | tests/test_rxerr.cpp:182-187 | NOT_WANTED exactly when a frame past the first two gates is declined by the acceptance predicate |
| Reassembly.RejectionLeavesNoState | tests/test_rxerr.cpp:182-194 | after a declined frame, the same frame with an accepting filter behaves as if the declined one never came |
| Reassembly.ContinuationWithoutSession | tests/test_rxerr.cpp:215-227 | a continuation frame, final or not, with no open session gives MISSED_START and changes nothing |
| Reassembly.SingleFrameTransfer | tests/test_rxerr.cpp:229-234 | a start+end frame gives OK whatever the pool holds, delivers one transfer, releases the key's blocks and leaves no session |
| Reassembly.NoSessionAfterCompletion | tests/test_rxerr.cpp:215-234 | after a single-frame transfer, a continuation for its key gives MISSED_START |
| Reassembly.StartFrameOpensSession | tests/test_rxerr.cpp:236-242 | a full non-final start frame with one block available gives OK and opens a session expecting its transfer ID and the opposite toggle |
| Reassembly.StartFrameOutOfMemory | tests/test_rxerr.cpp:372-380 | with no block available such a start frame gives OUT_OF_MEMORY and changes nothing |
| Reassembly.ShortNonFinalFrame | tests/test_rxerr.cpp:347-359 | a non-final frame under 8 bytes gives SHORT_FRAME and changes nothing, for a start frame and for a matching continuation |
| Reassembly.ExpiredSessionDropped | tests/test_rxerr.cpp:292-326 | a continuation after the timeout gives MISSED_START whatever its transfer ID, toggle or length; the session is dropped and its blocks freed |
| Reassembly.UnexpectedTransferId | tests/test_rxerr.cpp:251-256 | a timely continuation with another transfer ID gives UNEXPECTED_TID and changes nothing |
| Reassembly.WrongToggleRejected | tests/test_rxerr.cpp:244-249 | a timely continuation with the right transfer ID and wrong toggle gives WRONG_TOGGLE whatever its length, and changes nothing |
| Reassembly.ContinuationAccepted | tests/test_rxerr.cpp:258-263 | a matching continuation that fits in the pool gives OK: the toggle flips, the timestamp and length are updated and the pool pays for the new bytes, or at the end the session closes, its blocks return to the pool and the transfer is delivered |
| Reassembly.ContinuationOutOfMemory | tests/test_rxerr.cpp:362-381 | a matching continuation whose bytes need more blocks than the pool has to spare gives OUT_OF_MEMORY and changes nothing |
| Reassembly.SessionsOpenOnlyOnStart | tests/test_rxerr.cpp:215-227 | only an admissible non-final start frame creates a session |
| RxInstance.Instance.constructor | tests/test_rxerr.cpp:90-95 | all of a pool's whole blocks are free, with no session and no local node ID |
| RxInstance.Instance.SetLocalNodeId | tests/test_rxerr.cpp:146 | the local node ID is set and the rest of the state keeps the pool invariant |
| RxInstance.Instance.HandleRxFrame | tests/test_rxerr.cpp:80-381 | the return code and the new state are those of Admit on the old state, and the pool invariant is kept |
| RxErrScenarios.IncompatiblePacketHandling | tests/test_rxerr.cpp:80-127 | the five frames give INCOMPATIBLE_PACKET four times, then OK |
| RxErrScenarios.WrongAddressHandling | tests/test_rxerr.cpp:129-161 | WRONG_ADDRESS for destination 24, then OK for destination 20 |
| RxErrScenarios.ShouldAcceptHandling | tests/test_rxerr.cpp:163-195 | NOT_WANTED while the filter declines, then OK for the same frame |
| RxErrScenarios.NoStateHandling | tests/test_rxerr.cpp:197-264 | MISSED_START twice, OK twice, WRONG_TOGGLE, UNEXPECTED_TID, then OK |
| RxErrScenarios.MissedStartHandling | tests/test_rxerr.cpp:266-327 | for every timeout below 3999999: OK and MISSED_START alternate three times |
| RxErrScenarios.ShortFrameHandling | tests/test_rxerr.cpp:329-360 | SHORT_FRAME for the 2-byte and the 3-byte start frame |
| RxErrScenarios.OutOfMemoryHandling | tests/test_rxerr.cpp:362-381 | OUT_OF_MEMORY for a full start frame over a zero-byte pool |

## Left out

- The C bodies of the library's own `canardHandleRxFrame`, `canardInit` and `canardSetLocalNodeID` are not in the test file. Their behaviour is modelled from what the tests assert about them.
- RxInstance.Instance.SetLocalNodeId: does not model any validation of the node ID that `canardSetLocalNodeID` may perform, because that code is not part of this model.
- Payload bytes, the transfer CRC and the contents handed to `onTransferReceived` (tests/test_rxerr.cpp:62-66) are left out, because the callback ignores its arguments and the tests check no payload byte. Sessions and delivered transfers keep only lengths and metadata.
- The byte layout of the memory pool, its free list and the size of a session record are left out. The pool is a free-block count, and blocks are charged for payload bytes only.
- Frames longer than 8 bytes cannot be represented (`FrameData` holds at most 8), although the C frame's `data_len` is a `uint8_t`. What the library does with such a frame is not in the test file.
- The exact session timeout is left out because it is defined outside the tests. It is a parameter.
- The relative order of the transfer-ID and toggle checks is not fixed by the tests, as noted above.
- The anonymous flag is decoded but takes no part in admission, because the tests send no anonymous frame.
- The transmit side, the CAN driver, hardware timing and the Catch test harness are left out, because none of them takes part in receive admission.
