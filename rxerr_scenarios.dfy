/**
 * The receive-error test cases of tests/test_rxerr.cpp, replayed against the
 * model. Each method builds an instance the way its test case does, offers
 * the same frames in the same order, asserts the same return codes and
 * returns them. The bytes of the frame buffer that a test never writes are a
 * parameter (`junk`), and so is the session timeout, constrained only as the
 * timeout test needs.
 */
module RxErrScenarios {
  import opened CanId
  import opened Reassembly
  import opened RxInstance

  /** The test file's shouldAcceptTransfer with g_should_accept set. */
  const AcceptAll: Filter := (port, kind, source) => true
  /** The same callback with g_should_accept cleared. */
  const RejectAll: Filter := (port, kind, source) => false

  /** The memory pool of the test cases, canard_memory_pool[1024]. */
  const PoolBytes: nat := 1024

  function Byte(w: bv32): bv8
    requires w < 0x100
  {
    w as bv8
  }

  /** The test's service identifier, CONSTRUCT_SVC_ID(0, 0, 1, dest, 0). */
  function Svc(dest: bv8): FrameId
  {
    ServiceId(0, 0, 1, dest, 0)
  }

  /** Frames in extended format with a bad RTR, ERR or length flag are
      incompatible; a one-byte extended frame is accepted. */
  method IncompatiblePacketHandling(timeout: U64, junk: seq<bv8>) returns (codes: seq<RxResult>)
    requires |junk| == MaxFrameData
    ensures codes == [IncompatiblePacket, IncompatiblePacket, IncompatiblePacket, IncompatiblePacket, Ok]
  {
    var data := junk[0 := Byte(TailByte(1, 1, 1, 0))];
    var ins := new Instance(PoolBytes, timeout, AcceptAll);

    var r1 := ins.HandleRxFrame(Frame(FrameId(0, false, false, false), data[..1]), 1);
    assert r1 == IncompatiblePacket;
    var r2 := ins.HandleRxFrame(Frame(FrameId(0, true, true, false), data[..1]), 1);
    assert r2 == IncompatiblePacket;
    var r3 := ins.HandleRxFrame(Frame(FrameId(0, true, false, true), data[..1]), 1);
    assert r3 == IncompatiblePacket;
    var r4 := ins.HandleRxFrame(Frame(FrameId(0, true, false, false), data[..0]), 1);
    assert r4 == IncompatiblePacket;
    var r5 := ins.HandleRxFrame(Frame(FrameId(0, true, false, false), data[..1]), 1);
    assert r5 == Ok;
    codes := [r1, r2, r3, r4, r5];
  }

  /** With local node ID 20, a service frame for node 24 is refused and one
      for node 20 is accepted. */
  method WrongAddressHandling(timeout: U64, junk: seq<bv8>) returns (codes: seq<RxResult>)
    requires |junk| == MaxFrameData
    ensures codes == [WrongAddress, Ok]
  {
    var data := junk[0 := Byte(TailByte(1, 1, 1, 0))];
    var ins := new Instance(PoolBytes, timeout, AcceptAll);
    ins.SetLocalNodeId(20);

    var r1 := ins.HandleRxFrame(Frame(Svc(24), data[..1]), 1);
    assert r1 == WrongAddress;
    var r2 := ins.HandleRxFrame(Frame(Svc(20), data[..1]), 1);
    assert r2 == Ok;
    codes := [r1, r2];
  }

  /** A declined frame is not wanted and leaves no state: the same frame is
      accepted once the filter takes it. */
  method ShouldAcceptHandling(timeout: U64, junk: seq<bv8>) returns (codes: seq<RxResult>)
    requires |junk| == MaxFrameData
    ensures codes == [NotWanted, Ok]
  {
    var data := junk[0 := Byte(TailByte(1, 1, 1, 0))];
    var ins := new Instance(PoolBytes, timeout, AcceptAll);
    ins.SetLocalNodeId(20);

    ins.accept := RejectAll;
    var r1 := ins.HandleRxFrame(Frame(Svc(20), data[..1]), 1);
    assert r1 == NotWanted;
    ins.accept := AcceptAll;
    var r2 := ins.HandleRxFrame(Frame(Svc(20), data[..1]), 1);
    assert r2 == Ok;
    codes := [r1, r2];
  }

  /** Continuations without a session miss the start; a single-frame transfer
      and a start frame are accepted; a continuation with the old toggle or
      another transfer ID is refused without harm to the session, which then
      takes the right continuation. */
  method NoStateHandling(timeout: U64, junk: seq<bv8>) returns (codes: seq<RxResult>)
    requires |junk| == MaxFrameData
    ensures codes == [MissedStart, MissedStart, Ok, Ok, WrongToggle, UnexpectedTid, Ok]
  {
    var ins := new Instance(PoolBytes, timeout, AcceptAll);
    ins.SetLocalNodeId(20);
    var data := junk;

    data := data[0 := Byte(TailByte(0, 0, 1, 0))];
    var r1 := ins.HandleRxFrame(Frame(Svc(20), data[..1]), 1);
    assert r1 == MissedStart;

    data := data[0 := Byte(TailByte(0, 1, 1, 0))];
    var r2 := ins.HandleRxFrame(Frame(Svc(20), data[..1]), 1);
    assert r2 == MissedStart;

    data := data[0 := Byte(TailByte(1, 1, 1, 0))];
    var r3 := ins.HandleRxFrame(Frame(Svc(20), data[..1]), 1);
    assert r3 == Ok;

    data := data[7 := Byte(TailByte(1, 0, 1, 1))];
    var r4 := ins.HandleRxFrame(Frame(Svc(20), data[..8]), 1);
    assert r4 == Ok;

    data := data[0 := Byte(TailByte(0, 0, 1, 1))];
    var r5 := ins.HandleRxFrame(Frame(Svc(20), data[..1]), 1);
    assert r5 == WrongToggle;

    data := data[7 := Byte(TailByte(0, 0, 0, 2))];
    var r6 := ins.HandleRxFrame(Frame(Svc(20), data[..8]), 1);
    assert r6 == UnexpectedTid;

    data := data[7 := Byte(TailByte(0, 0, 0, 1))];
    var r7 := ins.HandleRxFrame(Frame(Svc(20), data[..8]), 1);
    assert r7 == Ok;
    codes := [r1, r2, r3, r4, r5, r6, r7];
  }

  /** A continuation after the timeout, or with a timestamp before the start
      frame's, misses the start (expiry wins over a wrong transfer ID), and a
      new start frame is accepted each time. */
  method MissedStartHandling(timeout: U64, junk: seq<bv8>) returns (codes: seq<RxResult>)
    requires |junk| == MaxFrameData
    requires timeout < 4000000 - 1
    ensures codes == [Ok, MissedStart, Ok, MissedStart, Ok, MissedStart]
  {
    var ins := new Instance(PoolBytes, timeout, AcceptAll);
    ins.SetLocalNodeId(20);
    var data := junk;

    data := data[7 := Byte(TailByte(1, 0, 1, 1))];
    var r1 := ins.HandleRxFrame(Frame(Svc(20), data[..8]), 1);
    assert r1 == Ok;

    data := data[7 := Byte(TailByte(0, 0, 0, 1))];
    var r2 := ins.HandleRxFrame(Frame(Svc(20), data[..8]), 4000000);
    assert r2 == MissedStart;

    data := data[7 := Byte(TailByte(1, 0, 1, 1))];
    var r3 := ins.HandleRxFrame(Frame(Svc(20), data[..8]), 1);
    assert r3 == Ok;

    data := data[7 := Byte(TailByte(0, 0, 0, 1))];
    var r4 := ins.HandleRxFrame(Frame(Svc(20), data[..8]), 0);
    assert r4 == MissedStart;

    data := data[7 := Byte(TailByte(1, 0, 1, 1))];
    var r5 := ins.HandleRxFrame(Frame(Svc(20), data[..8]), 1);
    assert r5 == Ok;

    data := data[7 := Byte(TailByte(0, 0, 0, 3))];
    data := data[7 := 3 | (1 << 5)];
    var r6 := ins.HandleRxFrame(Frame(Svc(20), data[..8]), 0);
    assert r6 == MissedStart;
    codes := [r1, r2, r3, r4, r5, r6];
  }

  /** Start frames of two and three bytes that do not end their transfer are
      short. */
  method ShortFrameHandling(timeout: U64, junk: seq<bv8>) returns (codes: seq<RxResult>)
    requires |junk| == MaxFrameData
    ensures codes == [ShortFrame, ShortFrame]
  {
    var ins := new Instance(PoolBytes, timeout, AcceptAll);
    ins.SetLocalNodeId(20);
    var data := junk;

    data := data[1 := Byte(TailByte(1, 0, 1, 1))];
    var r1 := ins.HandleRxFrame(Frame(Svc(20), data[..2]), 1);
    assert r1 == ShortFrame;

    data := data[2 := Byte(TailByte(1, 0, 1, 1))];
    var r2 := ins.HandleRxFrame(Frame(Svc(20), data[..3]), 1);
    assert r2 == ShortFrame;
    codes := [r1, r2];
  }

  /** Over an empty pool a full start frame that does not end its transfer
      runs out of memory. */
  method OutOfMemoryHandling(timeout: U64, junk: seq<bv8>) returns (codes: seq<RxResult>)
    requires |junk| == MaxFrameData
    ensures codes == [OutOfMemory]
  {
    var ins := new Instance(0, timeout, AcceptAll);
    ins.SetLocalNodeId(20);
    var data := junk;

    data := data[7 := Byte(TailByte(1, 0, 0, 1))];
    var r1 := ins.HandleRxFrame(Frame(Svc(20), data[..8]), 1);
    assert r1 == OutOfMemory;
    codes := [r1];
  }
}
