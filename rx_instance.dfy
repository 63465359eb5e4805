/**
 * The receiving instance: its pool, its optional local node ID, its
 * acceptance predicate and its session table, updated in place by one call
 * of HandleRxFrame per received frame.
 *
 * HandleRxFrame walks the gates one by one and returns at the first that
 * fails; its postcondition ties the return code and the new state to the
 * pure transition Reassembly.Admit, whose properties are proved there.
 */
module RxInstance {
  import opened CanId
  import opened Reassembly

  class Instance {
    /** Pool capacity in blocks. */
    const capacity: nat
    /** Session timeout, in the caller's timestamp units. */
    const timeout: U64

    var localNodeId: Option<NodeId>
    var accept: Filter
    var freeBlocks: nat
    var sessions: map<SessionKey, Session>
    var delivered: seq<Transfer>

    function State(): RxState
      reads this
    {
      RxState(sessions, freeBlocks, delivered)
    }

    ghost predicate Valid()
      reads this
    {
      PoolValid(capacity, State())
    }

    /** An instance over a pool of `poolBytes` bytes: as many whole blocks as
        fit, all free, no session, no local node ID. */
    constructor (poolBytes: nat, timeout: U64, accept: Filter)
      ensures Valid()
      ensures capacity == poolBytes / BlockSize && this.timeout == timeout && this.accept == accept
      ensures localNodeId == None && sessions == map[] && freeBlocks == capacity && delivered == []
    {
      capacity := poolBytes / BlockSize;
      this.timeout := timeout;
      this.accept := accept;
      localNodeId := None;
      sessions := map[];
      freeBlocks := poolBytes / BlockSize;
      delivered := [];
    }

    method SetLocalNodeId(id: NodeId)
      requires Valid()
      modifies this`localNodeId
      ensures Valid()
      ensures localNodeId == Some(id)
    {
      localNodeId := Some(id);
    }

    /** Admits one frame received at `now`. */
    method HandleRxFrame(frame: Frame, now: U64) returns (result: RxResult)
      requires Valid()
      modifies this`freeBlocks, this`sessions, this`delivered
      ensures Valid()
      ensures Step(result, State()) == Admit(old(State()), localNodeId, timeout, accept, frame, now)
    {
      ghost var before := State();
      AdmitPreservesPool(capacity, before, localNodeId, timeout, accept, frame, now);

      // Structure.
      if !frame.id.eff || frame.id.rtr || frame.id.err || |frame.data| == 0 {
        return IncompatiblePacket;
      }
      var id := frame.id.can;

      // Address: only service transfers carry a destination.
      if IsService(id) && localNodeId.Some? && DestinationOf(id) != localNodeId.value {
        return WrongAddress;
      }

      // Filter, before any session is looked at.
      var key := KeyOf(id);
      if !accept(key.port, key.kind, key.source) {
        return NotWanted;
      }

      var tail := DecodeTail(frame.data[|frame.data| - 1]);
      var payloadLen := |frame.data| - 1;
      var complete := tail.end || |frame.data| == MaxFrameData;

      if tail.start {
        if !complete {
          return ShortFrame;
        }
        var available := freeBlocks;
        if key in sessions {
          available := available + BlocksFor(sessions[key].payloadLen);
        }
        if tail.end {
          sessions := sessions - {key};
          freeBlocks := available;
          delivered := delivered + [Transfer(key, PriorityOf(id), tail.transferId, payloadLen)];
          return Ok;
        }
        var need := BlocksFor(payloadLen);
        if available < need {
          return OutOfMemory;
        }
        sessions := sessions[key := Session(tail.transferId, !tail.toggle, now, payloadLen)];
        freeBlocks := available - need;
        return Ok;
      }

      if key !in sessions {
        return MissedStart;
      }
      var s := sessions[key];
      if Elapsed(now, s.timestamp) > timeout {
        sessions := sessions - {key};
        freeBlocks := freeBlocks + BlocksFor(s.payloadLen);
        return MissedStart;
      }
      if tail.transferId != s.transferId {
        return UnexpectedTid;
      }
      if tail.toggle != s.toggle {
        return WrongToggle;
      }
      if !complete {
        return ShortFrame;
      }
      var total := s.payloadLen + payloadLen;
      var extra := BlocksFor(total) - BlocksFor(s.payloadLen);
      if freeBlocks < extra {
        return OutOfMemory;
      }
      if tail.end {
        sessions := sessions - {key};
        freeBlocks := freeBlocks - extra + BlocksFor(total);
        delivered := delivered + [Transfer(key, PriorityOf(id), s.transferId, total)];
      } else {
        sessions := sessions[key := Session(s.transferId, !s.toggle, now, total)];
        freeBlocks := freeBlocks - extra;
      }
      return Ok;
    }
  }
}
