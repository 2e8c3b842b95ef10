/** The worker side: which pool rank owns each offset, assigned round robin, and what the
    public calls send. As functions on a value, and as the object whose methods update
    the map in place. */
module WorkerTask {
  import opened Wrappers
  import opened ScratchFile
  import opened Protocol
  import opened PrivateMap

  datatype WorkerState = WorkerState(rankMap: map<nat, nat>, distrib: nat, emptyReads: nat)

  const FRESH := WorkerState(map[], 0, 0)

  function AssignOwnership(l: Layout, w: WorkerState, off: nat): WorkerState {
    var owner := w.distrib + l.starting;
    var next := w.distrib + 1;
    w.(rankMap := w.rankMap[off := owner], distrib := if next == l.numOcore then 0 else next)
  }

  /** The state after a write has settled the owner of its offset. */
  function Settle(l: Layout, w: WorkerState, off: nat): (r: WorkerState)
    ensures off in r.rankMap
  {
    if off in w.rankMap then w else AssignOwnership(l, w, off)
  }

  function WriteHeader(l: Layout, w: WorkerState, off: nat): Header {
    var owner := Settle(l, w, off).rankMap[off];
    if off in w.rankMap then UpdateOld(owner, off) else WriteNew(owner, off)
  }

  /** The worker's tables are the ones its history of calls implies. */
  predicate Tracks(l: Layout, w: WorkerState, h: History) {
    w.rankMap == Owners(l, h) && w.distrib == Assigned(h) % l.numOcore
  }

  /** Each write keeps the owner of an offset the worker holds and gives the k-th new one
      to the k-th pool rank, cyclically. */
  lemma WriteTracks(l: Layout, w: WorkerState, h: History, off: nat, data: Bytes)
    requires Tracks(l, w, h)
    ensures Tracks(l, Settle(l, w, off), h + [Wrote(off, data)])
    ensures off !in w.rankMap ==> Settle(l, w, off).rankMap[off] == OwnerOf(l, Assigned(h))
    ensures forall x :: x in w.rankMap ==> Settle(l, w, off).rankMap[x] == w.rankMap[x]
  {
    assert (h + [Wrote(off, data)])[..|h|] == h;
    NextQuotient(Assigned(h), l.numOcore);
  }

  /** The header of a write says update exactly when the worker's history holds the offset, and
      goes to its owner or to the next pool rank in turn. */
  lemma WriteKindExactly(l: Layout, w: WorkerState, h: History, off: nat)
    requires Tracks(l, w, h)
    ensures LatestWrite(h, off).Some? <==> off in Owners(l, h)
    ensures WriteHeader(l, w, off) ==
            if off in Owners(l, h) then UpdateOld(Owners(l, h)[off], off)
            else WriteNew(l.starting + Assigned(h) % l.numOcore, off)
  {
    ContentsIsLatestWrite(h, off);
  }

  lemma ReadTracks(l: Layout, w: WorkerState, h: History, off: nat, data: Bytes)
    requires Tracks(l, w, h)
    ensures Tracks(l, w, h + [Got(off, data)])
    ensures Tracks(l, w.(rankMap := w.rankMap - {off}), h + [Popped(off, data)])
  {
    assert (h + [Got(off, data)])[..|h|] == h;
    assert (h + [Popped(off, data)])[..|h|] == h;
  }

  /** A worker is told of as many records as it has written and not popped since. */
  lemma NumActiveIsContents(l: Layout, w: WorkerState, h: History)
    requires Tracks(l, w, h)
    ensures |w.rankMap| == |Contents(h)|
    ensures forall off :: off in w.rankMap <==> LatestWrite(h, off).Some?
  {
    assert |w.rankMap| == |w.rankMap.Keys| && |Contents(h)| == |Contents(h).Keys|;
    forall off ensures off in w.rankMap <==> LatestWrite(h, off).Some? {
      ContentsIsLatestWrite(h, off);
    }
  }

  /** What a call posts: headers and blocks, each to one rank. */
  datatype Packet = HeaderTo(dest: nat, header: Header) | BlockTo(dest: nat, data: Bytes)

  lemma {:induction false} FirstKeyExists(m: map<nat, nat>, n: nat)
    requires exists x :: x in m && x < n
    ensures exists off :: IsFirst(m, off)
  {
    if exists x :: x in m && x < n - 1 {
      FirstKeyExists(m, n - 1);
    } else {
      assert IsFirst(m, n - 1);
    }
  }

  class OcoreWorker {
    const l: Layout
    const allowEmptyRecords: bool
    const blank: Bytes
    var rankMap: map<nat, nat>
    var distribRank: nat
    var numEmptyReads: nat
    var sent: seq<Packet>

    ghost function State(): WorkerState
      reads this
    {
      WorkerState(rankMap, distribRank, numEmptyReads)
    }

    constructor (l: Layout, allowEmptyRecords: bool, blank: Bytes)
      ensures this.l == l && this.allowEmptyRecords == allowEmptyRecords && this.blank == blank
      ensures State() == FRESH && sent == []
    {
      this.l, this.allowEmptyRecords, this.blank := l, allowEmptyRecords, blank;
      rankMap, distribRank, numEmptyReads, sent := map[], 0, 0, [];
    }

    /** The worker is told how many records it has written and not popped since; h is the
        history its tables stand for. */
    method NumActive(ghost h: History) returns (n: nat)
      requires Tracks(l, State(), h)
      ensures n == |Contents(h)|
    {
      NumActiveIsContents(l, State(), h);
      n := |rankMap|;
    }

    method AssignOwner(off: nat) returns (owner: nat)
      modifies this
      ensures State() == AssignOwnership(l, old(State()), off) && sent == old(sent)
      ensures owner == rankMap[off]
    {
      owner := distribRank + l.starting;
      distribRank := distribRank + 1;
      if distribRank == l.numOcore {
        distribRank := 0;
      }
      rankMap := rankMap[off := owner];
    }

    /** Posts the header and then the block to the owner of the offset. */
    method Write(off: nat, data: Bytes)
      modifies this
      ensures State() == Settle(l, old(State()), off)
      ensures var h := WriteHeader(l, old(State()), off);
        sent == old(sent) + [HeaderTo(h.dest, h), BlockTo(h.dest, data)]
    {
      var newData := off !in rankMap;
      var rankOwner: nat;
      if newData {
        rankOwner := AssignOwner(off);
      } else {
        rankOwner := rankMap[off];
      }
      var h := if newData then WriteNew(rankOwner, off) else UpdateOld(rankOwner, off);
      sent := sent + [HeaderTo(rankOwner, h)];
      sent := sent + [BlockTo(rankOwner, data)];
    }

    /** Asks the owner for the block and returns the reply. An offset never written gives
        a blank block without any message, or none (the program aborts) where empty
        records are not allowed. */
    method Read(off: nat, reply: Bytes) returns (data: Option<Bytes>)
      modifies this
      ensures rankMap == old(rankMap) && distribRank == old(distribRank)
      ensures off in rankMap ==>
        && data == Some(reply) && numEmptyReads == old(numEmptyReads)
        && sent == old(sent) + [HeaderTo(rankMap[off], ReadRequest(rankMap[off], off))]
      ensures off !in rankMap ==>
        && sent == old(sent)
        && data == (if allowEmptyRecords then Some(blank) else None)
        && numEmptyReads == old(numEmptyReads) + if allowEmptyRecords then 1 else 0
    {
      if off !in rankMap {
        if !allowEmptyRecords {
          return None;
        }
        numEmptyReads := numEmptyReads + 1;
        return Some(blank);
      }
      var rankOwner := rankMap[off];
      sent := sent + [HeaderTo(rankOwner, ReadRequest(rankOwner, off))];
      data := Some(reply);
    }

    /** Reads the record of the lowest offset and forgets it; the pool keeps its copy. */
    method PopRecord(reply: Bytes) returns (popped: Option<(nat, Bytes)>)
      modifies this
      ensures old(rankMap) == map[] ==> popped == None && State() == old(State()) && sent == old(sent)
      ensures old(rankMap) != map[] ==>
        && popped.Some? && popped.value.1 == reply
        && IsFirst(old(rankMap), popped.value.0)
        && State() == old(State()).(rankMap := old(rankMap) - {popped.value.0})
        && var owner := old(rankMap)[popped.value.0];
           sent == old(sent) + [HeaderTo(owner, ReadRequest(owner, popped.value.0))]
    {
      if rankMap == map[] {
        return None;
      }
      ghost var x :| x in rankMap;
      FirstKeyExists(rankMap, x + 1);
      var off :| IsFirst(rankMap, off);
      var data := Read(off, reply);
      rankMap := rankMap - {off};
      popped := Some((off, data.value));
    }
  }
}
