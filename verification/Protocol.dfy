/** The messages between worker tasks and pool tasks. */
module Protocol {
  import opened ScratchFile

  /** The header sent ahead of every request: its kind, the rank it is meant for and the
      sparse offset. The block size it also carries is never looked at. */
  datatype Header =
    | WriteNew(dest: nat, offset: nat)
    | UpdateOld(dest: nat, offset: nat)
    | ReadRequest(dest: nat, offset: nat)
    | Exit

  predicate IsWrite(h: Header) {
    h.WriteNew? || h.UpdateOld?
  }

  /** Rank layout: workers come first, pool tasks have the highest ranks. */
  datatype Ranks = Ranks(starting: nat, numOcore: nat)

  type Layout = l: Ranks | l.starting > 0 && l.numOcore > 0 witness Ranks(1, 1)
}
