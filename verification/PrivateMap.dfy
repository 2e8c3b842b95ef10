/** The promise made to one worker: a map of its own from offsets to blocks, read as a
    history of what it wrote and what it was given back. Independent of ranks, messages
    and tiers. */
module PrivateMap {
  import opened Wrappers
  import opened ScratchFile
  import opened Protocol

  /** A completed call: a write, a read, or a pop with the record it returned. */
  datatype Obs = Wrote(offset: nat, data: Bytes) | Got(offset: nat, data: Bytes) | Popped(offset: nat, data: Bytes)

  type History = seq<Obs>

  function Apply(m: map<nat, Bytes>, o: Obs): map<nat, Bytes> {
    match o
    case Wrote(off, b) => m[off := b]
    case Got(_, _) => m
    case Popped(off, _) => m - {off}
  }

  function Contents(h: History): map<nat, Bytes> {
    if h == [] then map[] else Apply(Contents(h[..|h| - 1]), h[|h| - 1])
  }

  predicate IsFirst<T>(m: map<nat, T>, off: nat) {
    off in m && forall x :: x in m ==> off <= x
  }

  /** What a call may return when the map is m: reads of unwritten offsets give a blank
      block where that is allowed, and a pop takes the record of the lowest offset. */
  predicate LegalCall(blank: Bytes, emptyOk: bool, m: map<nat, Bytes>, o: Obs) {
    match o
    case Wrote(_, _) => true
    case Got(off, b) => if off in m then b == m[off] else emptyOk && b == blank
    case Popped(off, b) => IsFirst(m, off) && b == m[off]
  }

  predicate Legal(blank: Bytes, emptyOk: bool, h: History) {
    h == [] ||
    (Legal(blank, emptyOk, h[..|h| - 1]) && LegalCall(blank, emptyOk, Contents(h[..|h| - 1]), h[|h| - 1]))
  }

  /** The block of the latest write to an offset since its latest pop. */
  function LatestWrite(h: History, off: nat): Option<Bytes> {
    if h == [] then None
    else
      var o := h[|h| - 1];
      if o.Wrote? && o.offset == off then Some(o.data)
      else if o.Popped? && o.offset == off then None
      else LatestWrite(h[..|h| - 1], off)
  }

  lemma {:induction false} ContentsIsLatestWrite(h: History, off: nat)
    ensures LatestWrite(h, off) == if off in Contents(h) then Some(Contents(h)[off]) else None
  {
    if h != [] { ContentsIsLatestWrite(h[..|h| - 1], off); }
  }

  /** In a legal history every read returns the worker's own latest write to that offset
      since its last pop of it, or the blank block when there is none. */
  lemma {:induction false} ReadsReturnLatestWrite(blank: Bytes, emptyOk: bool, h: History, i: nat)
    requires Legal(blank, emptyOk, h) && i < |h| && !h[i].Wrote?
    ensures match LatestWrite(h[..i], h[i].offset)
            case Some(b) => h[i].data == b
            case None => h[i].Got? && emptyOk && h[i].data == blank
  {
    if i == |h| - 1 {
      ContentsIsLatestWrite(h[..i], h[i].offset);
    } else {
      var n := |h| - 1;
      ReadsReturnLatestWrite(blank, emptyOk, h[..n], i);
      assert h[..n][..i] == h[..i];
    }
  }

  ghost predicate AllPops(pops: History) {
    forall i :: 0 <= i < |pops| ==> pops[i].Popped?
  }

  ghost predicate Mentions(pops: History, off: nat) {
    exists i :: 0 <= i < |pops| && pops[i].offset == off
  }

  ghost predicate Ascending(pops: History) {
    forall i, j :: 0 <= i < j < |pops| ==> pops[i].offset < pops[j].offset
  }

  ghost predicate TakenFrom(m: map<nat, Bytes>, pops: History) {
    forall i :: 0 <= i < |pops| ==> pops[i].offset in m && pops[i].data == m[pops[i].offset]
  }

  ghost predicate Covers(m: map<nat, Bytes>, pops: History) {
    forall off :: off in m ==> Mentions(pops, off)
  }

  /** `pops` returns every record of m exactly once, lowest offset first. */
  ghost predicate Returns(m: map<nat, Bytes>, pops: History) {
    Ascending(pops) && TakenFrom(m, pops) && Covers(m, pops)
  }

  lemma AscendingCons(m: map<nat, Bytes>, o: Obs, rest: History)
    requires IsFirst(m, o.offset) && TakenFrom(m - {o.offset}, rest) && Ascending(rest)
    ensures Ascending([o] + rest)
  {
    var pops := [o] + rest;
    forall i, j | 0 <= i < j < |pops| ensures pops[i].offset < pops[j].offset {
      assert pops[j] == rest[j - 1];
      if i > 0 { assert pops[i] == rest[i - 1]; }
    }
  }

  lemma CoversCons(m: map<nat, Bytes>, o: Obs, rest: History)
    requires Covers(m - {o.offset}, rest)
    ensures Covers(m, [o] + rest)
  {
    var pops := [o] + rest;
    forall off | off in m ensures Mentions(pops, off) {
      if off == o.offset {
        assert pops[0].offset == off;
      } else {
        assert Mentions(rest, off);
        var i :| 0 <= i < |rest| && rest[i].offset == off;
        assert pops[i + 1].offset == off;
      }
    }
  }

  lemma ReturnsCons(m: map<nat, Bytes>, o: Obs, rest: History)
    requires o.Popped? && IsFirst(m, o.offset) && o.data == m[o.offset] && Returns(m - {o.offset}, rest)
    ensures Returns(m, [o] + rest)
  {
    AscendingCons(m, o, rest);
    CoversCons(m, o, rest);
    hide Ascending, Covers, IsFirst;
    var pops := [o] + rest;
    forall i | 0 <= i < |pops| ensures pops[i].offset in m && pops[i].data == m[pops[i].offset] {
      if i > 0 { assert pops[i] == rest[i - 1]; }
    }
  }

  /** Popping as often as there are records empties the map and returns each offset once,
      in ascending order, with its last written block. */
  lemma {:induction false} DrainReturnsAll(blank: Bytes, emptyOk: bool, h: History, pops: History)
    requires Legal(blank, emptyOk, h + pops) && |pops| == |Contents(h)|
    requires AllPops(pops)
    ensures Contents(h + pops) == map[] && Returns(Contents(h), pops)
    decreases |pops|
  {
    var m := Contents(h);
    if pops == [] {
      assert h + pops == h && m == map[];
    } else {
      var o, rest := pops[0], pops[1..];
      var h1 := h + [o];
      SplitFirst(h, pops);
      LegalPrefix(blank, emptyOk, h1, rest);
      FirstPop(blank, emptyOk, h, o);
      DrainReturnsAll(blank, emptyOk, h1, rest);
      ReturnsCons(m, o, rest);
    }
  }

  lemma SplitFirst(h: History, pops: History)
    requires pops != []
    ensures pops == [pops[0]] + pops[1..] && h + pops == (h + [pops[0]]) + pops[1..]
  {
  }

  lemma FirstPop(blank: Bytes, emptyOk: bool, h: History, o: Obs)
    requires Legal(blank, emptyOk, h + [o]) && o.Popped?
    ensures var m := Contents(h);
      && IsFirst(m, o.offset) && o.data == m[o.offset]
      && Contents(h + [o]) == m - {o.offset} && |m - {o.offset}| == |m| - 1
  {
    assert (h + [o])[..|h|] == h;
    var m := Contents(h);
    assert m.Keys == (m - {o.offset}).Keys + {o.offset};
  }

  lemma {:induction false} LegalPrefix(blank: Bytes, emptyOk: bool, h: History, more: History)
    requires Legal(blank, emptyOk, h + more)
    ensures Legal(blank, emptyOk, h)
    decreases |more|
  {
    if more == [] {
      assert h + more == h;
    } else {
      assert (h + more)[..|h + more| - 1] == h + more[..|more| - 1];
      LegalPrefix(blank, emptyOk, h, more[..|more| - 1]);
    }
  }

  // ---- round-robin ownership ----

  predicate IsNew(h: History, o: Obs) {
    o.Wrote? && o.offset !in Contents(h)
  }

  /** How many of the writes so far were to an offset the worker did not hold. */
  function Assigned(h: History): nat {
    if h == [] then 0
    else Assigned(h[..|h| - 1]) + if IsNew(h[..|h| - 1], h[|h| - 1]) then 1 else 0
  }

  /** Round robin: the k-th assignment goes to the k-th pool rank, cyclically. */
  function OwnerOf(l: Layout, k: nat): (r: nat)
    ensures l.starting <= r < l.starting + l.numOcore
  {
    l.starting + k % l.numOcore
  }

  /** Which pool rank holds each offset of the map. */
  function Owners(l: Layout, h: History): (m: map<nat, nat>)
    ensures m.Keys == Contents(h).Keys
  {
    if h == [] then map[]
    else
      var g, o := h[..|h| - 1], h[|h| - 1];
      if IsNew(g, o) then Owners(l, g)[o.offset := OwnerOf(l, Assigned(g))]
      else if o.Popped? then Owners(l, g) - {o.offset}
      else Owners(l, g)
  }

  /** How many of the first n assignments went to pool task p. */
  function HandedTo(l: Layout, n: nat, p: nat): nat {
    if n == 0 then 0
    else HandedTo(l, n - 1, p) + if OwnerOf(l, n - 1) == l.starting + p then 1 else 0
  }

  lemma {:induction false} HandedToExactly(l: Layout, n: nat, p: nat)
    requires p < l.numOcore
    ensures HandedTo(l, n, p) == n / l.numOcore + if p < n % l.numOcore then 1 else 0
  {
    if n > 0 {
      HandedToExactly(l, n - 1, p);
      NextQuotient(n - 1, l.numOcore);
    }
  }

  lemma NextQuotient(n: nat, d: nat)
    requires d > 0
    ensures if n % d == d - 1 then (n + 1) / d == n / d + 1 && (n + 1) % d == 0
            else (n + 1) / d == n / d && (n + 1) % d == n % d + 1
  {
    var q, r := n / d, n % d;
    assert n == q * d + r;
    if r == d - 1 {
      assert n + 1 == (q + 1) * d;
      DivUnique(n + 1, d, q + 1, 0);
    } else {
      DivUnique(n + 1, d, q, r + 1);
    }
  }

  lemma DivUnique(n: nat, d: nat, q: nat, r: nat)
    requires d > 0 && n == q * d + r && r < d
    ensures n / d == q && n % d == r
  {
    var q1, r1 := n / d, n % d;
    assert n == q1 * d + r1;
    if q1 < q {
      MulGrows(q1, q, d);
    } else if q1 > q {
      MulGrows(q, q1, d);
    }
  }

  /** Fairness: the totals handed to any two pool tasks differ by at most one. */
  lemma RoundRobinIsFair(l: Layout, n: nat, p: nat, q: nat)
    requires p < l.numOcore && q < l.numOcore
    ensures -1 <= HandedTo(l, n, p) - HandedTo(l, n, q) <= 1
  {
    HandedToExactly(l, n, p);
    HandedToExactly(l, n, q);
  }
}
