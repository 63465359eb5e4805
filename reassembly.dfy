/**
 * The receive frame-admission pipeline as a pure state transition.
 *
 * Admit maps the receiver's abstract state and one incoming frame (with its
 * arrival timestamp) to a return code and the next state. Every frame passes
 * the same gates in the same order:
 *   1. structure   (extended format, no RTR, no error flag, at least one byte)
 *   2. address     (service transfers only, when a local node ID is set)
 *   3. filter      (the application's acceptance predicate)
 *   4. session     (start frames open or reset the session of their key,
 *                   continuation frames must match the open session)
 * The session stage is split into AdmitStart and AdmitContinuation below.
 *
 * The memory pool is reduced to a count of free blocks; a session holding n
 * payload bytes owns BlocksFor(n) blocks. PoolValid states that the free
 * blocks and the blocks owned by sessions add up to the pool's capacity,
 * and AdmitPreservesPool proves that every frame keeps it.
 */
module Reassembly {
  import opened CanId

  datatype Option<T> = None | Some(value: T)

  /** Unsigned 64-bit timestamps, as the receiver gets them from its caller. */
  type U64 = t: int | 0 <= t < 0x1_0000_0000_0000_0000

  /** A 7-bit node ID. */
  type NodeId = n: bv8 | n < 128

  /** Bytes in a classic CAN frame. */
  const MaxFrameData: nat := 8

  /** Bytes in one pool block. */
  const BlockSize: nat := 32

  type FrameData = s: seq<bv8> | |s| <= MaxFrameData

  /** A received CAN frame: its identifier word and its first data_len bytes. */
  datatype Frame = Frame(id: FrameId, data: FrameData)

  datatype Kind = Message | Request | Response

  /** Sessions are keyed by transfer kind, port (subject or service ID) and
      source node. */
  datatype SessionKey = SessionKey(kind: Kind, port: bv16, source: bv8)

  /** An open reassembly: the transfer ID every further frame must carry, the
      toggle the next frame must carry, the timestamp of the last accepted
      frame and the number of payload bytes gathered so far. */
  datatype Session = Session(transferId: bv8, toggle: bool, timestamp: U64, payloadLen: nat)

  /** A transfer handed to the application. */
  datatype Transfer = Transfer(key: SessionKey, priority: bv8, transferId: bv8, payloadLen: nat)

  datatype RxState = RxState(sessions: map<SessionKey, Session>, freeBlocks: nat, delivered: seq<Transfer>)

  /** The return codes of the admission entry point. */
  datatype RxResult =
    | Ok
    | IncompatiblePacket
    | WrongAddress
    | NotWanted
    | MissedStart
    | WrongToggle
    | UnexpectedTid
    | ShortFrame
    | OutOfMemory

  datatype Step = Step(result: RxResult, next: RxState)

  /** The application's acceptance predicate over (port, kind, source). */
  type Filter = (bv16, Kind, bv8) -> bool

  // ---------------------------------------------------------------------
  // Gates

  function KindOf(id: bv32): Kind
  {
    if !IsService(id) then Message else if IsRequest(id) then Request else Response
  }

  function PortOf(id: bv32): bv16
  {
    if IsService(id) then ServiceOf(id) else SubjectOf(id)
  }

  function KeyOf(id: bv32): SessionKey
  {
    SessionKey(KindOf(id), PortOf(id), SourceOf(id))
  }

  /** The structural gate. The protocol-version bit is not examined. */
  predicate Compatible(f: Frame)
  {
    f.id.eff && !f.id.rtr && !f.id.err && |f.data| > 0
  }

  /** The address gate: only service transfers are addressed, and only a node
      with a local ID checks the destination. */
  predicate AddressMatches(id: bv32, local: Option<NodeId>)
  {
    !IsService(id) || local.None? || DestinationOf(id) == local.value
  }

  predicate Wanted(accept: Filter, id: bv32)
  {
    var key := KeyOf(id);
    accept(key.port, key.kind, key.source)
  }

  /** The frame gets past the structure, address and filter gates. */
  predicate Admissible(local: Option<NodeId>, accept: Filter, f: Frame)
  {
    Compatible(f) && AddressMatches(f.id.can, local) && Wanted(accept, f.id.can)
  }

  /** The tail byte is the last data byte. */
  function TailOf(f: Frame): Tail
    requires |f.data| > 0
  {
    DecodeTail(f.data[|f.data| - 1])
  }

  /** A frame that does not end its transfer must be full. */
  predicate LengthOk(dataLen: nat, tail: Tail)
  {
    tail.end || dataLen == MaxFrameData
  }

  /** Time since `last`, by unsigned 64-bit subtraction: a timestamp earlier
      than `last` reads as almost 2^64 later. */
  function Elapsed(now: U64, last: U64): (e: U64)
    ensures now >= last ==> e == now - last
    ensures now < last ==> e == 0x1_0000_0000_0000_0000 - (last - now)
  {
    (now - last) % 0x1_0000_0000_0000_0000
  }

  predicate Expired(now: U64, last: U64, timeout: U64)
  {
    Elapsed(now, last) > timeout
  }

  /** Blocks needed for n payload bytes. */
  function BlocksFor(n: nat): nat
  {
    (n + BlockSize - 1) / BlockSize
  }

  // ---------------------------------------------------------------------
  // The transition

  /** Nothing but the session under `key` differs between the two tables. */
  ghost predicate OthersUntouched(before: map<SessionKey, Session>, after: map<SessionKey, Session>, key: SessionKey)
  {
    && (forall k :: k in before && k != key ==> k in after && after[k] == before[k])
    && (forall k :: k in after && k != key ==> k in before)
  }

  /** One frame through the pipeline. A rejection leaves the state as it was,
      except that an expired session is dropped; only the frame's own session
      changes; at most one transfer is delivered, and only on success. */
  function Admit(st: RxState, local: Option<NodeId>, timeout: U64, accept: Filter, frame: Frame, now: U64): (r: Step)
    ensures r.result != Ok && r.result != MissedStart ==> r.next == st
    ensures r.result == MissedStart ==>
              r.next.delivered == st.delivered && r.next.sessions == st.sessions - {KeyOf(frame.id.can)}
    ensures OthersUntouched(st.sessions, r.next.sessions, KeyOf(frame.id.can))
    ensures st.delivered <= r.next.delivered && |r.next.delivered| <= |st.delivered| + 1
    ensures |r.next.delivered| > |st.delivered| ==>
              r.result == Ok && r.next.delivered[|st.delivered|].key == KeyOf(frame.id.can)
  {
    if !Compatible(frame) then Step(IncompatiblePacket, st)
    else if !AddressMatches(frame.id.can, local) then Step(WrongAddress, st)
    else if !Wanted(accept, frame.id.can) then Step(NotWanted, st)
    else
      var key := KeyOf(frame.id.can);
      var prio := PriorityOf(frame.id.can);
      var tail := TailOf(frame);
      if tail.start then AdmitStart(st, key, prio, tail, |frame.data|, now)
      else AdmitContinuation(st, key, prio, tail, |frame.data|, timeout, now)
  }

  /** A start frame: a short non-final frame is refused; a single-frame
      transfer drops any open session of the key and is delivered; otherwise
      the session is (re)opened if its first block can be had. */
  function AdmitStart(st: RxState, key: SessionKey, prio: bv8, tail: Tail, dataLen: nat, now: U64): Step
    requires dataLen > 0
  {
    if !LengthOk(dataLen, tail) then Step(ShortFrame, st)
    else
      var available := if key in st.sessions then st.freeBlocks + BlocksFor(st.sessions[key].payloadLen)
                       else st.freeBlocks;
      if tail.end then
        Step(Ok, RxState(st.sessions - {key}, available,
                         st.delivered + [Transfer(key, prio, tail.transferId, dataLen - 1)]))
      else if available < BlocksFor(dataLen - 1) then Step(OutOfMemory, st)
      else
        Step(Ok, RxState(st.sessions[key := Session(tail.transferId, !tail.toggle, now, dataLen - 1)],
                         available - BlocksFor(dataLen - 1), st.delivered))
  }

  /** A continuation frame: it needs an open, unexpired session whose transfer
      ID and toggle it carries; a non-final frame must be full; the appended
      bytes must find room in the pool. */
  function AdmitContinuation(st: RxState, key: SessionKey, prio: bv8, tail: Tail, dataLen: nat, timeout: U64, now: U64): Step
    requires dataLen > 0
  {
    if key !in st.sessions then Step(MissedStart, st)
    else
      var s := st.sessions[key];
      if Expired(now, s.timestamp, timeout) then
        Step(MissedStart, RxState(st.sessions - {key}, st.freeBlocks + BlocksFor(s.payloadLen), st.delivered))
      else if tail.transferId != s.transferId then Step(UnexpectedTid, st)
      else if tail.toggle != s.toggle then Step(WrongToggle, st)
      else if !LengthOk(dataLen, tail) then Step(ShortFrame, st)
      else
        var total := s.payloadLen + (dataLen - 1);
        var extra := BlocksFor(total) - BlocksFor(s.payloadLen);
        if st.freeBlocks < extra then Step(OutOfMemory, st)
        else if tail.end then
          Step(Ok, RxState(st.sessions - {key}, st.freeBlocks - extra + BlocksFor(total),
                           st.delivered + [Transfer(key, prio, s.transferId, total)]))
        else
          Step(Ok, RxState(st.sessions[key := Session(s.transferId, !s.toggle, now, total)],
                           st.freeBlocks - extra, st.delivered))
  }

  // ---------------------------------------------------------------------
  // The pool invariant

  /** Blocks owned by all open sessions. */
  ghost function BlocksInUse(m: map<SessionKey, Session>): nat
    decreases |m.Keys|
  {
    if m == map[] then 0
    else
      var k :| k in m;
      BlocksFor(m[k].payloadLen) + BlocksInUse(m - {k})
  }

  /** Free blocks and blocks owned by sessions add up to the capacity, so the
      sessions never own more than the pool has. */
  ghost predicate PoolValid(capacity: nat, st: RxState)
  {
    st.freeBlocks + BlocksInUse(st.sessions) == capacity
  }

  /** The blocks in use split into those of any one session and the rest. */
  lemma {:induction false} BlocksInUseRemove(m: map<SessionKey, Session>, key: SessionKey)
    requires key in m
    ensures BlocksInUse(m) == BlocksFor(m[key].payloadLen) + BlocksInUse(m - {key})
    decreases |m.Keys|
  {
    var k :| k in m && BlocksInUse(m) == BlocksFor(m[k].payloadLen) + BlocksInUse(m - {k});
    if k != key {
      var m' := m - {k};
      assert |m'.Keys| < |m.Keys| by { assert m'.Keys == m.Keys - {k}; }
      BlocksInUseRemove(m', key);
      var m'' := m - {key};
      assert |m''.Keys| < |m.Keys| by { assert m''.Keys == m.Keys - {key}; }
      BlocksInUseRemove(m'', k);
      assert m' - {key} == m'' - {k};
    }
  }

  /** Blocks a session of `key` owns, zero when there is none. */
  ghost function Owned(m: map<SessionKey, Session>, key: SessionKey): nat
  {
    if key in m then BlocksFor(m[key].payloadLen) else 0
  }

  lemma BlocksInUseWithout(m: map<SessionKey, Session>, key: SessionKey)
    ensures BlocksInUse(m) == Owned(m, key) + BlocksInUse(m - {key})
  {
    if key in m {
      BlocksInUseRemove(m, key);
    } else {
      assert m - {key} == m;
    }
  }

  lemma BlocksForMonotone(a: nat, b: nat)
    requires a <= b
    ensures BlocksFor(a) <= BlocksFor(b)
  {
  }

  /** A start frame keeps the pool accounting exact. */
  lemma AdmitStartPreservesPool(capacity: nat, st: RxState, key: SessionKey, prio: bv8, tail: Tail,
                                dataLen: nat, now: U64)
    requires dataLen > 0 && PoolValid(capacity, st)
    ensures PoolValid(capacity, AdmitStart(st, key, prio, tail, dataLen, now).next)
  {
    var next := AdmitStart(st, key, prio, tail, dataLen, now).next;
    if next != st {
      BlocksInUseWithout(st.sessions, key);
      BlocksInUseWithout(next.sessions, key);
      assert next.sessions - {key} == st.sessions - {key};
    }
  }

  /** A continuation frame keeps the pool accounting exact. */
  lemma AdmitContinuationPreservesPool(capacity: nat, st: RxState, key: SessionKey, prio: bv8, tail: Tail,
                                       dataLen: nat, timeout: U64, now: U64)
    requires dataLen > 0 && PoolValid(capacity, st)
    ensures PoolValid(capacity, AdmitContinuation(st, key, prio, tail, dataLen, timeout, now).next)
  {
    var next := AdmitContinuation(st, key, prio, tail, dataLen, timeout, now).next;
    if next != st {
      var s := st.sessions[key];
      BlocksForMonotone(s.payloadLen, s.payloadLen + (dataLen - 1));
      BlocksInUseWithout(st.sessions, key);
      BlocksInUseWithout(next.sessions, key);
      assert next.sessions - {key} == st.sessions - {key};
    }
  }

  /** Every frame keeps the pool accounting exact. */
  lemma AdmitPreservesPool(capacity: nat, st: RxState, local: Option<NodeId>, timeout: U64,
                           accept: Filter, frame: Frame, now: U64)
    requires PoolValid(capacity, st)
    ensures PoolValid(capacity, Admit(st, local, timeout, accept, frame, now).next)
  {
    if Admissible(local, accept, frame) {
      var key := KeyOf(frame.id.can);
      var prio := PriorityOf(frame.id.can);
      var tail := TailOf(frame);
      if tail.start {
        AdmitStartPreservesPool(capacity, st, key, prio, tail, |frame.data|, now);
      } else {
        AdmitContinuationPreservesPool(capacity, st, key, prio, tail, |frame.data|, timeout, now);
      }
    }
  }

  // ---------------------------------------------------------------------
  // Gate order

  /** The structural gate fires exactly on frames that are not in extended
      format, are remote or error frames, or carry no byte. */
  lemma IncompatibleIff(st: RxState, local: Option<NodeId>, timeout: U64, accept: Filter, frame: Frame, now: U64)
    ensures Admit(st, local, timeout, accept, frame, now).result == IncompatiblePacket <==> !Compatible(frame)
  {
  }

  /** The address gate fires exactly on well-formed service frames addressed
      to another node while a local node ID is set. */
  lemma WrongAddressIff(st: RxState, local: Option<NodeId>, timeout: U64, accept: Filter, frame: Frame, now: U64)
    ensures Admit(st, local, timeout, accept, frame, now).result == WrongAddress
            <==> Compatible(frame) && IsService(frame.id.can) && local.Some? && DestinationOf(frame.id.can) != local.value
  {
  }

  /** The filter gate fires exactly on frames past the first two gates that
      the acceptance predicate declines. */
  lemma NotWantedIff(st: RxState, local: Option<NodeId>, timeout: U64, accept: Filter, frame: Frame, now: U64)
    ensures Admit(st, local, timeout, accept, frame, now).result == NotWanted
            <==> Compatible(frame) && AddressMatches(frame.id.can, local) && !Wanted(accept, frame.id.can)
  {
  }

  /** A frame the filter declines leaves nothing behind: offered again with a
      filter that takes it, it meets exactly the state it would have met had
      it never been declined. */
  lemma RejectionLeavesNoState(st: RxState, local: Option<NodeId>, timeout: U64, reject: Filter, accept: Filter,
                               frame: Frame, now: U64, later: U64)
    requires !Wanted(reject, frame.id.can)
    ensures var first := Admit(st, local, timeout, reject, frame, now);
            first.result != Ok
            && Admit(first.next, local, timeout, accept, frame, later) == Admit(st, local, timeout, accept, frame, later)
  {
  }

  // ---------------------------------------------------------------------
  // The session stage

  /** A continuation frame for a key without an open session misses the start
      and changes nothing. */
  lemma ContinuationWithoutSession(st: RxState, local: Option<NodeId>, timeout: U64, accept: Filter, frame: Frame, now: U64)
    requires Admissible(local, accept, frame) && !TailOf(frame).start
    requires KeyOf(frame.id.can) !in st.sessions
    ensures Admit(st, local, timeout, accept, frame, now) == Step(MissedStart, st)
  {
  }

  /** A frame that both starts and ends its transfer is delivered at once,
      whatever the pool holds, and leaves no session for its key. */
  lemma SingleFrameTransfer(st: RxState, local: Option<NodeId>, timeout: U64, accept: Filter, frame: Frame, now: U64)
    requires Admissible(local, accept, frame) && TailOf(frame).start && TailOf(frame).end
    ensures var r := Admit(st, local, timeout, accept, frame, now);
            var key := KeyOf(frame.id.can);
            && r.result == Ok
            && key !in r.next.sessions
            && r.next.freeBlocks == st.freeBlocks + Owned(st.sessions, key)
            && r.next.delivered == st.delivered + [Transfer(key, PriorityOf(frame.id.can), TailOf(frame).transferId, |frame.data| - 1)]
  {
  }

  /** Once a transfer has completed, a continuation frame for its key misses
      the start: sessions do not outlive their transfer. */
  lemma NoSessionAfterCompletion(st: RxState, local: Option<NodeId>, timeout: U64, accept: Filter,
                                 single: Frame, cont: Frame, now: U64, later: U64)
    requires Admissible(local, accept, single) && TailOf(single).start && TailOf(single).end
    requires Admissible(local, accept, cont) && !TailOf(cont).start
    requires KeyOf(cont.id.can) == KeyOf(single.id.can)
    ensures var first := Admit(st, local, timeout, accept, single, now);
            Admit(first.next, local, timeout, accept, cont, later) == Step(MissedStart, first.next)
  {
    SingleFrameTransfer(st, local, timeout, accept, single, now);
  }

  /** A full start frame that does not end its transfer (re)opens the session
      of its key when one block can be had: the session expects the frame's
      transfer ID and the opposite of its toggle. */
  lemma StartFrameOpensSession(st: RxState, local: Option<NodeId>, timeout: U64, accept: Filter, frame: Frame, now: U64)
    requires Admissible(local, accept, frame) && TailOf(frame).start && !TailOf(frame).end
    requires |frame.data| == MaxFrameData
    requires st.freeBlocks + Owned(st.sessions, KeyOf(frame.id.can)) >= 1
    ensures var r := Admit(st, local, timeout, accept, frame, now);
            var tail := TailOf(frame);
            && r.result == Ok
            && r.next.sessions == st.sessions[KeyOf(frame.id.can) := Session(tail.transferId, !tail.toggle, now, MaxFrameData - 1)]
            && r.next.freeBlocks == st.freeBlocks + Owned(st.sessions, KeyOf(frame.id.can)) - 1
            && r.next.delivered == st.delivered
  {
  }

  /** With no block to spare such a start frame runs out of memory and
      changes nothing. */
  lemma StartFrameOutOfMemory(st: RxState, local: Option<NodeId>, timeout: U64, accept: Filter, frame: Frame, now: U64)
    requires Admissible(local, accept, frame) && TailOf(frame).start && !TailOf(frame).end
    requires |frame.data| == MaxFrameData
    requires st.freeBlocks + Owned(st.sessions, KeyOf(frame.id.can)) == 0
    ensures Admit(st, local, timeout, accept, frame, now) == Step(OutOfMemory, st)
  {
  }

  /** A non-final frame shorter than a full frame is refused and changes
      nothing: a start frame always, a continuation once it matches its
      session's transfer ID and toggle. */
  lemma ShortNonFinalFrame(st: RxState, local: Option<NodeId>, timeout: U64, accept: Filter, frame: Frame, now: U64)
    requires Admissible(local, accept, frame) && !TailOf(frame).end && |frame.data| < MaxFrameData
    requires var key := KeyOf(frame.id.can);
             var tail := TailOf(frame);
             || tail.start
             || (&& key in st.sessions
                 && !Expired(now, st.sessions[key].timestamp, timeout)
                 && tail.transferId == st.sessions[key].transferId
                 && tail.toggle == st.sessions[key].toggle)
    ensures Admit(st, local, timeout, accept, frame, now) == Step(ShortFrame, st)
  {
  }

  /** Expiry is decided before anything else about a continuation frame: the
      session is dropped, its blocks go back to the pool and the frame misses
      the start, whatever its transfer ID, toggle or length. */
  lemma ExpiredSessionDropped(st: RxState, local: Option<NodeId>, timeout: U64, accept: Filter, frame: Frame, now: U64)
    requires Admissible(local, accept, frame) && !TailOf(frame).start
    requires KeyOf(frame.id.can) in st.sessions
    requires Expired(now, st.sessions[KeyOf(frame.id.can)].timestamp, timeout)
    ensures var r := Admit(st, local, timeout, accept, frame, now);
            var key := KeyOf(frame.id.can);
            && r.result == MissedStart
            && r.next.sessions == st.sessions - {key}
            && r.next.freeBlocks == st.freeBlocks + BlocksFor(st.sessions[key].payloadLen)
            && r.next.delivered == st.delivered
  {
  }

  /** A timely continuation with another transfer ID is refused and leaves
      the session as it was, whatever its toggle or length. */
  lemma UnexpectedTransferId(st: RxState, local: Option<NodeId>, timeout: U64, accept: Filter, frame: Frame, now: U64)
    requires Admissible(local, accept, frame) && !TailOf(frame).start
    requires KeyOf(frame.id.can) in st.sessions
    requires !Expired(now, st.sessions[KeyOf(frame.id.can)].timestamp, timeout)
    requires TailOf(frame).transferId != st.sessions[KeyOf(frame.id.can)].transferId
    ensures Admit(st, local, timeout, accept, frame, now) == Step(UnexpectedTid, st)
  {
  }

  /** A timely continuation of the right transfer with the wrong toggle is
      refused and leaves the session as it was, whatever its length. */
  lemma WrongToggleRejected(st: RxState, local: Option<NodeId>, timeout: U64, accept: Filter, frame: Frame, now: U64)
    requires Admissible(local, accept, frame) && !TailOf(frame).start
    requires KeyOf(frame.id.can) in st.sessions
    requires !Expired(now, st.sessions[KeyOf(frame.id.can)].timestamp, timeout)
    requires TailOf(frame).transferId == st.sessions[KeyOf(frame.id.can)].transferId
    requires TailOf(frame).toggle != st.sessions[KeyOf(frame.id.can)].toggle
    ensures Admit(st, local, timeout, accept, frame, now) == Step(WrongToggle, st)
  {
  }

  /** A matching continuation whose bytes fit in the pool is accepted: before
      the end the toggle flips, the timestamp is refreshed and the bytes are
      counted; at the end the session closes and its transfer is delivered. */
  lemma ContinuationAccepted(st: RxState, local: Option<NodeId>, timeout: U64, accept: Filter, frame: Frame, now: U64)
    requires Admissible(local, accept, frame) && !TailOf(frame).start
    requires KeyOf(frame.id.can) in st.sessions
    requires var s := st.sessions[KeyOf(frame.id.can)];
             var tail := TailOf(frame);
             && !Expired(now, s.timestamp, timeout)
             && tail.transferId == s.transferId
             && tail.toggle == s.toggle
             && LengthOk(|frame.data|, tail)
             && st.freeBlocks + BlocksFor(s.payloadLen) >= BlocksFor(s.payloadLen + |frame.data| - 1)
    ensures var r := Admit(st, local, timeout, accept, frame, now);
            var key := KeyOf(frame.id.can);
            var s := st.sessions[key];
            var total := s.payloadLen + |frame.data| - 1;
            && r.result == Ok
            && (!TailOf(frame).end ==>
                  && r.next.sessions == st.sessions[key := Session(s.transferId, !s.toggle, now, total)]
                  && r.next.freeBlocks == st.freeBlocks + BlocksFor(s.payloadLen) - BlocksFor(total)
                  && r.next.delivered == st.delivered)
            && (TailOf(frame).end ==>
                  && r.next.sessions == st.sessions - {key}
                  && r.next.freeBlocks == st.freeBlocks + BlocksFor(s.payloadLen)
                  && r.next.delivered == st.delivered + [Transfer(key, PriorityOf(frame.id.can), s.transferId, total)])
  {
  }

  /** A matching continuation whose bytes would need more blocks than the
      pool has to spare runs out of memory and changes nothing. */
  lemma ContinuationOutOfMemory(st: RxState, local: Option<NodeId>, timeout: U64, accept: Filter, frame: Frame, now: U64)
    requires Admissible(local, accept, frame) && !TailOf(frame).start
    requires KeyOf(frame.id.can) in st.sessions
    requires var s := st.sessions[KeyOf(frame.id.can)];
             var tail := TailOf(frame);
             && !Expired(now, s.timestamp, timeout)
             && tail.transferId == s.transferId
             && tail.toggle == s.toggle
             && LengthOk(|frame.data|, tail)
             && st.freeBlocks + BlocksFor(s.payloadLen) < BlocksFor(s.payloadLen + |frame.data| - 1)
    ensures Admit(st, local, timeout, accept, frame, now) == Step(OutOfMemory, st)
  {
  }

  /** Only a well-formed start frame opens a session. */
  lemma SessionsOpenOnlyOnStart(st: RxState, local: Option<NodeId>, timeout: U64, accept: Filter, frame: Frame, now: U64)
    requires KeyOf(frame.id.can) !in st.sessions
    requires KeyOf(frame.id.can) in Admit(st, local, timeout, accept, frame, now).next.sessions
    ensures Admissible(local, accept, frame) && TailOf(frame).start && !TailOf(frame).end
  {
  }
}
