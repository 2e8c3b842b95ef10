/** The messages a pool task takes in, and what it owes their senders. */
module PoolInbox {
  import opened Wrappers
  import opened ScratchFile
  import opened Protocol
  import opened PoolSpec
  import opened PoolRuns

  /** A header as received from any source, with the payload its sender posts next. */
  datatype Message = Message(source: nat, header: Header, payload: Bytes)

  /** A request without the choices its handling leaves open. */
  datatype Request = Put(key: SparseKey, data: Bytes) | Get(key: SparseKey)

  function RequestOf(rank: nat, m: Message): seq<Request> {
    if m.header.Exit? || m.header.dest != rank then []
    else if IsWrite(m.header) then [Put(SparseKey(m.source, m.header.offset), m.payload)]
    else [Get(SparseKey(m.source, m.header.offset))]
  }

  predicate NoExit(inbox: seq<Message>, n: nat)
    requires n <= |inbox|
  {
    forall j :: 0 <= j < n ==> !inbox[j].header.Exit?
  }

  /** The requests in a stream of messages, those before the first exit header. */
  function Requests(rank: nat, inbox: seq<Message>): seq<Request> {
    if inbox == [] then []
    else
      var n := |inbox| - 1;
      Requests(rank, inbox[..n]) + if NoExit(inbox, n + 1) then RequestOf(rank, inbox[n]) else []
  }

  function Erase(ops: seq<Op>): seq<Request> {
    if ops == [] then []
    else
      var n := |ops| - 1;
      Erase(ops[..n]) + [match ops[n] case StoreOp(k, data, _) => Put(k, data) case PullOp(k) => Get(k)]
  }

  lemma RequestsSplit(rank: nat, inbox: seq<Message>, i: nat)
    requires i < |inbox| && NoExit(inbox, i)
    ensures !inbox[i].header.Exit? ==>
      NoExit(inbox, i + 1) &&
      Requests(rank, inbox[..i + 1]) == Requests(rank, inbox[..i]) + RequestOf(rank, inbox[i])
  {
    assert inbox[..i + 1][..i] == inbox[..i];
  }

  lemma {:induction false} RequestsPrefix(rank: nat, inbox: seq<Message>, i: nat)
    requires i <= |inbox|
    ensures Requests(rank, inbox[..i]) <= Requests(rank, inbox)
    ensures i < |inbox| && inbox[i].header.Exit? ==> Requests(rank, inbox) == Requests(rank, inbox[..i])
  {
    var n := |inbox| - 1;
    if i == |inbox| {
      assert inbox[..i] == inbox;
    } else if i == n {
    } else {
      RequestsPrefix(rank, inbox[..n], i);
      assert inbox[..n][..i] == inbox[..i];
    }
  }

  // ------------------------------------------------------------------------------
  // What senders are owed
  // ------------------------------------------------------------------------------

  /** The block of the last write to the offset that w addressed to this rank. */
  function LastWritten(rank: nat, inbox: seq<Message>, w: nat, off: nat): Option<Bytes> {
    if inbox == [] then None
    else
      var n := |inbox| - 1;
      var m := inbox[n];
      if IsWrite(m.header) && m.source == w && m.header.dest == rank && m.header.offset == off then Some(m.payload)
      else LastWritten(rank, inbox[..n], w, off)
  }

  /** What w has to find at the offset: that block, or what was stored for it at the start. */
  function Owed(c: Config, s0: PoolState, rank: nat, inbox: seq<Message>, w: nat, off: nat): Option<Bytes> {
    var b := LastWritten(rank, inbox, w, off);
    if b.Some? then b else Stored(c, s0, SparseKey(w, off))
  }

  /** Where the reads addressed to this rank stand. */
  function ReadsFor(rank: nat, inbox: seq<Message>): (at: seq<nat>)
    ensures forall n :: 0 <= n < |at| ==> at[n] < |inbox| && inbox[at[n]].header.ReadRequest?
  {
    if inbox == [] then []
    else
      var n := |inbox| - 1;
      ReadsFor(rank, inbox[..n]) + if inbox[n].header.ReadRequest? && inbox[n].header.dest == rank then [n] else []
  }

  /** r goes to whoever asked in message i and holds what is owed then. */
  ghost predicate RepliesTo(c: Config, s0: PoolState, rank: nat, inbox: seq<Message>, i: nat, r: Reply) {
    && i < |inbox| && inbox[i].header.ReadRequest?
    && r.key.rank == inbox[i].source && r.key.offset == inbox[i].header.offset
    && Owed(c, s0, rank, inbox[..i], inbox[i].source, inbox[i].header.offset) == Some(r.data)
  }

  /** One reply for each read, in order. */
  ghost predicate Answered(c: Config, s0: PoolState, rank: nat, inbox: seq<Message>, replies: seq<Reply>) {
    var at := ReadsFor(rank, inbox);
    |replies| == |at| && forall n :: 0 <= n < |at| ==> RepliesTo(c, s0, rank, inbox, at[n], replies[n])
  }

  /** The pool task holds what it owes. */
  ghost predicate Mirrors(c: Config, s0: PoolState, rank: nat, inbox: seq<Message>, s: PoolState) {
    forall w, off :: Owed(c, s0, rank, inbox, w, off) == Stored(c, s, SparseKey(w, off))
  }

  /** Message i asks for a block when none is owed, or brings a new record to a pool task that
      cannot overflow. */
  ghost predicate Unserved(c: Config, s0: PoolState, rank: nat, inbox: seq<Message>, i: nat) {
    && i < |inbox| && !inbox[i].header.Exit? && inbox[i].header.dest == rank
    && Owed(c, s0, rank, inbox[..i], inbox[i].source, inbox[i].header.offset) == None
    && (IsWrite(inbox[i].header) ==> !CanOverflow(c))
  }

  lemma NothingServed(c: Config, s0: PoolState, rank: nat)
    ensures Answered(c, s0, rank, [], []) && Mirrors(c, s0, rank, [], s0)
  {
  }

  /** What handling message m, not an exit header, makes of a pool task and what it sends. */
  ghost predicate Handled(c: Config, s: PoolState, rank: nat, m: Message, t: PoolState, replies: seq<Reply>) {
    !m.header.Exit? &&
    if m.header.dest != rank then t == s && replies == []
    else if IsWrite(m.header) then
      && replies == []
      && forall w, off :: Stored(c, t, SparseKey(w, off)) ==
           if w == m.source && off == m.header.offset then Some(m.payload) else Stored(c, s, SparseKey(w, off))
    else
      && |replies| == 1 && replies[0].key.rank == m.source && replies[0].key.offset == m.header.offset
      && Stored(c, s, SparseKey(m.source, m.header.offset)) == Some(replies[0].data)
      && forall w, off :: Stored(c, t, SparseKey(w, off)) == Stored(c, s, SparseKey(w, off))
  }

  ghost predicate Refused(c: Config, s: PoolState, rank: nat, m: Message) {
    && !m.header.Exit? && m.header.dest == rank && Stored(c, s, SparseKey(m.source, m.header.offset)) == None
    && (IsWrite(m.header) ==> !CanOverflow(c))
  }

  lemma StoredIsKnown(c: Config, s: PoolState, k: SparseKey)
    requires Inv(c, s)
    ensures Stored(c, s, k) == None <==> k !in s.smap
  {
    assert Placed(c, s, k);
  }

  lemma HandleServes(c: Config, s: PoolState, rank: nat, m: Message, op: Op)
    requires Inv(c, s) && !m.header.Exit? && m.header.dest == rank
    requires Allowed(c, s, op) && Erase([op]) == RequestOf(rank, m)
    ensures var r := Handle(c, s, op);
      if r.Live? then Handled(c, s, rank, m, r.state, r.replies) else Refused(c, s, rank, m)
  {
    hide Core, Stored, BeginStore, EndStore, PullData;
    assert Erase([op]) == [match op case StoreOp(k, data, _) => Put(k, data) case PullOp(k) => Get(k)];
    var k := op.key;
    StoredIsKnown(c, s, k);
    match op
    case StoreOp(_, data, ks) =>
      BeginStoreKeeps(c, s, k, ks);
      if BeginStore(c, s, k, ks).Begun? { EndStoreKeeps(c, BeginStore(c, s, k, ks).state, k, data); }
    case PullOp(_) => PullDataKeeps(c, s, k);
  }

  lemma RefusedIsUnserved(c: Config, s0: PoolState, rank: nat, inbox: seq<Message>, i: nat, s: PoolState)
    requires i < |inbox| && Mirrors(c, s0, rank, inbox[..i], s) && Refused(c, s, rank, inbox[i])
    ensures Unserved(c, s0, rank, inbox, i)
  {
    assert Owed(c, s0, rank, inbox[..i], inbox[i].source, inbox[i].header.offset) == None;
  }

  lemma OwedGrows(c: Config, s0: PoolState, rank: nat, inbox: seq<Message>, i: nat, w: nat, off: nat)
    requires i < |inbox|
    ensures var m := inbox[i];
      Owed(c, s0, rank, inbox[..i + 1], w, off) ==
      if IsWrite(m.header) && m.source == w && m.header.dest == rank && m.header.offset == off then Some(m.payload)
      else Owed(c, s0, rank, inbox[..i], w, off)
  {
    assert inbox[..i + 1][..i] == inbox[..i];
  }

  lemma OneMoreServed(c: Config, s0: PoolState, rank: nat, inbox: seq<Message>, i: nat, s: PoolState,
                      replies: seq<Reply>, t: PoolState, more: seq<Reply>)
    requires i < |inbox| && Handled(c, s, rank, inbox[i], t, more)
    requires Mirrors(c, s0, rank, inbox[..i], s) && Answered(c, s0, rank, inbox[..i], replies)
    ensures Mirrors(c, s0, rank, inbox[..i + 1], t) && Answered(c, s0, rank, inbox[..i + 1], replies + more)
  {
    hide Owed, Stored, LastWritten;
    var m, longer := inbox[i], inbox[..i + 1];
    forall w, off ensures Owed(c, s0, rank, longer, w, off) == Stored(c, t, SparseKey(w, off)) {
      OwedGrows(c, s0, rank, inbox, i, w, off);
      assert Owed(c, s0, rank, inbox[..i], w, off) == Stored(c, s, SparseKey(w, off));
    }
    assert longer[..i] == inbox[..i] && longer[i] == m;
    var at, before := ReadsFor(rank, longer), ReadsFor(rank, inbox[..i]);
    forall n | 0 <= n < |at| ensures RepliesTo(c, s0, rank, longer, at[n], (replies + more)[n]) {
      if n < |before| {
        assert RepliesTo(c, s0, rank, inbox[..i], before[n], replies[n]);
        assert longer[..before[n]] == inbox[..i][..before[n]];
      } else {
        assert Owed(c, s0, rank, inbox[..i], m.source, m.header.offset)
            == Stored(c, s, SparseKey(m.source, m.header.offset));
      }
    }
  }
}
