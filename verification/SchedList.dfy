/** Index arithmetic of the list of scheduled senders (SchedSenders in HomaTransport.cc).
    `P` is schedPrios, `G` numToGrant, `n` the number of listed senders; the list
    occupies the slots `head .. head + n` and every slot below `head` is NULL. */
module SchedList {
  import opened Wire

  /** The granted senders fit in the slots that have a priority of their own. */
  predicate HeadOk(P: nat, G: nat, head: int, n: nat) {
    && 1 <= G <= P
    && 0 <= head
    && head + Min(n, G) <= P
    && (n == 0 ==> head >= 1)
  }

  /** headIdx after the sender of rank `j` is taken out of a list of `n`. */
  function HeadAfterRemove(P: nat, G: nat, head: int, n: int, j: int): int {
    if j == 0 && head + Min(n - 1, G) < P then head + 1 else head
  }

  datatype Place = Place(idx: int, head: int)

  /** Where insPoint puts a sender of rank `r` among `n` listed senders. */
  function InsPlace(P: nat, G: nat, head: int, n: int, r: int, lastIdx: int): Place {
    var intoGap := r == 0 && head > 0 && head != lastIdx;
    var hIdx := if intoGap then head - 1 else head;
    var insIdx := if intoGap then head - 1 else head + r;
    var leftShift := Min(n + 1, Min(G, P)) - (P - hIdx);
    if leftShift > 0 then Place(insIdx - leftShift, hIdx - leftShift) else Place(insIdx, hIdx)
  }

  lemma RemoveKeepsHead(P: nat, G: nat, head: int, n: nat, j: nat)
    requires HeadOk(P, G, head, n) && j < n
    ensures HeadOk(P, G, HeadAfterRemove(P, G, head, n, j), n - 1)
  {
  }

  /** insPoint only moves the head left, onto NULL slots, and keeps ranks. */
  lemma InsPlaceOk(P: nat, G: nat, head: int, n: nat, r: nat, lastIdx: int)
    requires HeadOk(P, G, head, n) && r <= n
    ensures var p := InsPlace(P, G, head, n, r, lastIdx);
      HeadOk(P, G, p.head, n + 1) && p.idx - p.head == r && p.head <= head
  {
  }

  /** A new best sender takes the slot before the head; otherwise the head moves left by
      what the granted senders lack in slots with priorities of their own. */
  lemma InsHead(P: nat, G: nat, head: int, n: nat, r: nat, lastIdx: int)
    requires HeadOk(P, G, head, n) && r <= n
    ensures InsPlace(P, G, head, n, r, lastIdx).head
         == if r == 0 && head > 0 && head != lastIdx then head - 1 else head - Max(0, head + Min(n + 1, G) - P)
    ensures InsPlace(P, G, head, n, r, lastIdx).head >= 0
  {
  }

  /** Taking a sender out and asking where it belongs gives back its slot and the head. */
  lemma InsPlaceUndoesRemove(P: nat, G: nat, head: int, n: nat, j: nat)
    requires HeadOk(P, G, head, n) && j < n
    ensures InsPlace(P, G, HeadAfterRemove(P, G, head, n, j), n - 1, j, head + j) == Place(head + j, head)
  {
  }

  /** For a given list and remembered index, the slot determines the rank. */
  lemma SlotIsRank(P: nat, G: nat, head: int, n: nat, r: nat, r': nat, lastIdx: int)
    requires HeadOk(P, G, head, n) && r <= n && r' <= n
    ensures InsPlace(P, G, head, n, r, lastIdx).idx == InsPlace(P, G, head, n, r', lastIdx).idx <==> r == r'
  {
  }

  /** Granted senders have slots with distinct priorities of their own. */
  lemma GrantedSlot(P: nat, G: nat, head: int, n: nat, r: nat, lastIdx: int)
    requires HeadOk(P, G, head, n) && r <= n && r < G
    ensures 0 <= InsPlace(P, G, head, n, r, lastIdx).idx < P
  {
  }
}
