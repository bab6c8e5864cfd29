/** IPv4 fragmentation (fragmentAndSend in IPv4Flow.cc; section 3.2 of RFC 791) on one hop
    and through any chain of hops. */
module Fragmentation {
  import opened Arith

  /** The fields that fragmentation reads and writes; lengths and offsets in bytes. */
  datatype Datagram = Datagram(header: nat, payload: nat, offset: nat, moreFragments: bool, dontFragment: bool,
                               ttl: int)

  /** An outgoing interface; an MTU of zero is no limit. */
  datatype Hop = Hop(mtu: nat, loopback: bool)

  datatype Outcome = Sent(pieces: seq<Datagram>) | TimeExceeded | FragmentationNeeded | ConfigError

  function Length(d: Datagram): nat { d.header + d.payload }

  predicate Fits(d: Datagram, mtu: nat) { mtu == 0 || Length(d) <= mtu }

  /** Payload bytes of a full fragment. */
  function FragmentLength(mtu: nat, header: nat): int {
    if mtu >= header then ((mtu - header) / 8) * 8 else -(((header - mtu) / 8) * 8)
  }

  /** The datagram as it leaves: its hop count is lower by one unless it stays local. */
  function Aged(d: Datagram, hop: Hop): Datagram { if hop.loopback then d else d.(ttl := d.ttl - 1) }

  /** What leaves the hop. */
  function Forward(d: Datagram, hop: Hop): Outcome {
    var a := Aged(d, hop);
    if a.ttl < 0 then TimeExceeded
    else if Fits(a, hop.mtu) then Sent([a])
    else if a.dontFragment then FragmentationNeeded
    else if FragmentLength(hop.mtu, a.header) <= 0 then ConfigError
    else Sent(Cut(a, FragmentLength(hop.mtu, a.header), 0))
  }

  /** Fragments of `length` bytes from `offset` of the payload on. */
  function Cut(d: Datagram, length: int, offset: nat): seq<Datagram>
    requires length > 0
    decreases d.payload - offset
  {
    if offset >= d.payload then []
    else if offset + length >= d.payload then [d.(payload := d.payload - offset, offset := d.offset + offset)]
    else [d.(payload := length, offset := d.offset + offset, moreFragments := true)] + Cut(d, length, offset + length)
  }

  /** The loop; `noOfFragments` is the number the source computes beforehand. */
  method FragmentAndSend(datagram: Datagram, hop: Hop) returns (outcome: Outcome, noOfFragments: nat)
    ensures outcome == Forward(datagram, hop)
    ensures outcome.Sent? ==> noOfFragments == |outcome.pieces|
    ensures OutcomeFor(datagram, hop, outcome)
  {
    ForwardOutcome(datagram, hop);
    var d := datagram;
    noOfFragments := 0;
    if !hop.loopback {
      d := d.(ttl := d.ttl - 1);
    }
    if d.ttl < 0 {
      return TimeExceeded, 0;
    }
    var mtu := hop.mtu;
    if mtu == 0 || d.header + d.payload <= mtu {
      return Sent([d]), 1;
    }
    if d.dontFragment {
      return FragmentationNeeded, 0;
    }
    var payloadLength := d.payload;
    var fragmentLength := FragmentLength(mtu, d.header);
    if fragmentLength <= 0 {
      return ConfigError, 0;
    }
    noOfFragments := (payloadLength + fragmentLength - 1) / fragmentLength;
    var pieces: seq<Datagram> := [];
    var offset := 0;
    CutCount(d, fragmentLength, 0);
    while offset < payloadLength
      invariant offset >= 0 && pieces + Cut(d, fragmentLength, offset) == Cut(d, fragmentLength, 0)
      decreases payloadLength - offset
    {
      var lastFragment := offset + fragmentLength >= payloadLength;
      var thisFragmentLength := if lastFragment then payloadLength - offset else fragmentLength;
      var fragment := d;
      if !lastFragment {
        fragment := fragment.(moreFragments := true);
      }
      fragment := fragment.(payload := thisFragmentLength, offset := d.offset + offset);
      CutNext(d, fragmentLength, offset, fragment, pieces);
      pieces := pieces + [fragment];
      offset := offset + fragmentLength;
    }
    outcome := Sent(pieces);
  }

  lemma CutNext(d: Datagram, length: int, offset: nat, f: Datagram, pieces: seq<Datagram>)
    requires length > 0 && offset < d.payload
    requires f == if offset + length >= d.payload then d.(payload := d.payload - offset, offset := d.offset + offset)
                  else d.(payload := length, offset := d.offset + offset, moreFragments := true)
    ensures pieces + Cut(d, length, offset) == (pieces + [f]) + Cut(d, length, offset + length)
  {
    assert pieces + ([f] + Cut(d, length, offset + length)) == (pieces + [f]) + Cut(d, length, offset + length);
  }

  lemma {:induction false} CutCount(d: Datagram, length: int, offset: nat)
    requires length > 0 && offset <= d.payload
    ensures |Cut(d, length, offset)| == CeilDiv(d.payload - offset, length)
    decreases d.payload - offset
  {
    DivUp(d.payload - offset, length);
    if offset + length < d.payload { CutCount(d, length, offset + length); }
  }

  // ---- pieces of a datagram ----

  /** Consecutive pieces that cover the bytes from `from` up to `to`. */
  predicate Tiles(pieces: seq<Datagram>, from: nat, to: nat) {
    if pieces == [] then from == to
    else pieces[0].offset == from && Tiles(pieces[1..], from + pieces[0].payload, to)
  }

  /** A piece before the last one. */
  predicate Inner(p: Datagram) { p.moreFragments && p.payload > 0 && p.payload % 8 == 0 }

  /** The last piece of `d`: it says whether more follows as `d` did. */
  predicate Final(p: Datagram, d: Datagram) {
    && p.moreFragments == d.moreFragments
    && (d.payload > 0 ==> p.payload > 0) && (d.payload % 8 == 0 ==> p.payload % 8 == 0)
  }

  /** No piece is longer than `d` or has another header. */
  predicate Within(p: Datagram, d: Datagram) {
    p.header == d.header && p.payload <= d.payload && p.dontFragment == d.dontFragment
  }

  predicate AllWithin(pieces: seq<Datagram>, d: Datagram) { forall p :: p in pieces ==> Within(p, d) }

  /** `pieces` make up `d`. */
  predicate PiecesOf(pieces: seq<Datagram>, d: Datagram) {
    && pieces != [] && Tiles(pieces, d.offset, d.offset + d.payload) && AllWithin(pieces, d)
    && (forall i :: 0 <= i < |pieces| - 1 ==> Inner(pieces[i]))
    && Final(pieces[|pieces| - 1], d)
  }

  /** The part of `d` behind the first `offset` bytes of its payload. */
  function Rest(d: Datagram, offset: nat): Datagram
    requires offset <= d.payload
  {
    d.(payload := d.payload - offset, offset := d.offset + offset)
  }

  /** A piece before pieces of the rest. */
  lemma PrependPiece(p: Datagram, rest: seq<Datagram>, d: Datagram)
    requires Within(p, d) && p.payload < d.payload && Inner(p) && p.offset == d.offset
    requires PiecesOf(rest, Rest(d, p.payload))
    ensures PiecesOf([p] + rest, d)
  {
    var all := [p] + rest;
    assert all[1..] == rest && all[|all| - 1] == rest[|rest| - 1];
    forall i | 0 <= i < |all| - 1
      ensures Inner(all[i])
    {
      if i > 0 { assert Inner(rest[i - 1]); }
    }
    RemainderLess(d.payload, p.payload);
  }

  lemma RemainderLess(n: nat, m: nat)
    requires m <= n && m % 8 == 0
    ensures n % 8 == 0 ==> (n - m) % 8 == 0
  {
  }

  lemma {:induction false} CutMakesPieces(d: Datagram, length: int, offset: nat)
    requires length > 0 && length % 8 == 0 && offset < d.payload && offset % 8 == 0
    ensures PiecesOf(Cut(d, length, offset), Rest(d, offset))
    ensures forall p :: p in Cut(d, length, offset) ==> p.payload <= length
    decreases d.payload - offset
  {
    if offset + length < d.payload {
      CutMakesPieces(d, length, offset + length);
      var p := FirstPiece(d, length, offset);
      PrependPiece(p, Cut(d, length, offset + length), Rest(d, offset));
    } else {
      LastPiece(d, length, offset);
    }
  }

  lemma FirstPiece(d: Datagram, length: int, offset: nat) returns (p: Datagram)
    requires length > 0 && length % 8 == 0 && offset % 8 == 0 && offset + length < d.payload
    ensures Cut(d, length, offset) == [p] + Cut(d, length, offset + length) && p.payload == length
    ensures Within(p, Rest(d, offset)) && Inner(p) && p.offset == Rest(d, offset).offset
    ensures p.payload < Rest(d, offset).payload && Rest(Rest(d, offset), p.payload) == Rest(d, offset + length)
  {
    p := Cut(d, length, offset)[0];
  }

  lemma LastPiece(d: Datagram, length: int, offset: nat)
    requires length > 0 && length % 8 == 0 && offset % 8 == 0 && offset < d.payload <= offset + length
    ensures PiecesOf(Cut(d, length, offset), Rest(d, offset))
    ensures forall p :: p in Cut(d, length, offset) ==> p.payload <= length
  {
  }

  lemma FullFits(mtu: nat, header: nat)
    requires FragmentLength(mtu, header) > 0
    ensures FragmentLength(mtu, header) % 8 == 0 && header + FragmentLength(mtu, header) <= mtu
  {
  }

  /** One hop: what is sent makes up the datagram, and each piece fits. */
  lemma ForwardMakesPieces(d: Datagram, hop: Hop)
    requires Forward(d, hop).Sent?
    ensures PiecesOf(Forward(d, hop).pieces, d)
    ensures forall p :: p in Forward(d, hop).pieces ==> Fits(p, hop.mtu)
  {
    var a := Aged(d, hop);
    if Fits(a, hop.mtu) {
      assert [a][1..] == [];
    } else {
      var length := FragmentLength(hop.mtu, a.header);
      FullFits(hop.mtu, a.header);
      CutMakesPieces(a, length, 0);
      forall p | p in Forward(d, hop).pieces
        ensures Fits(p, hop.mtu)
      {
        assert Within(p, Rest(a, 0));
      }
    }
  }

  // ---- hop counts and outcomes ----

  /** The hop count a datagram has left behind an interface; local delivery is free. */
  function TtlBehind(ttl: int, hop: Hop): int { ttl - if hop.loopback then 0 else 1 }

  predicate TooLong(d: Datagram, hop: Hop) { 0 < hop.mtu < d.header + d.payload }

  /** No eight bytes of payload fit next to the header. */
  predicate NoRoom(d: Datagram, hop: Hop) { hop.mtu < d.header + 8 }

  /** `n` is the largest multiple of eight that fits next to the header. */
  predicate FullPiece(n: nat, header: nat, mtu: nat) { n % 8 == 0 && header + n <= mtu < header + n + 8 }

  /** What becomes of a datagram, for each outcome exactly when. */
  predicate OutcomeFor(d: Datagram, hop: Hop, r: Outcome) {
    var t := TtlBehind(d.ttl, hop);
    && (r.TimeExceeded? <==> t < 0)
    && (r.FragmentationNeeded? <==> t >= 0 && TooLong(d, hop) && d.dontFragment)
    && (r.ConfigError? <==> t >= 0 && TooLong(d, hop) && !d.dontFragment && NoRoom(d, hop))
    && (r.Sent? <==> t >= 0 && (TooLong(d, hop) ==> !d.dontFragment && !NoRoom(d, hop)))
    && (r.Sent? ==> forall p :: p in r.pieces ==> p.ttl == t)
    && (r.Sent? && !TooLong(d, hop) ==> r.pieces == [d.(ttl := t)])
    && (r.Sent? && TooLong(d, hop) ==>
          forall i :: 0 <= i < |r.pieces| - 1 ==> FullPiece(r.pieces[i].payload, d.header, hop.mtu))
  }

  lemma FullLength(mtu: nat, header: nat)
    ensures FragmentLength(mtu, header) <= 0 <==> mtu < header + 8
    ensures mtu >= header + 8 ==> FullPiece(FragmentLength(mtu, header), header, mtu)
  {
    if mtu >= header { assert mtu - header == FragmentLength(mtu, header) + (mtu - header) % 8; }
  }

  lemma {:induction false} CutFields(d: Datagram, length: int, offset: nat)
    requires length > 0
    ensures forall p :: p in Cut(d, length, offset) ==> p.ttl == d.ttl
    ensures forall i :: 0 <= i < |Cut(d, length, offset)| - 1 ==> Cut(d, length, offset)[i].payload == length
    decreases d.payload - offset
  {
    if offset + length < d.payload { CutFields(d, length, offset + length); }
  }

  lemma ForwardOutcome(d: Datagram, hop: Hop)
    ensures OutcomeFor(d, hop, Forward(d, hop))
  {
    FullLength(hop.mtu, d.header);
    if TooLong(d, hop) && !NoRoom(d, hop) { CutFields(Aged(d, hop), FragmentLength(hop.mtu, d.header), 0); }
  }

  // ---- chains of hops ----

  /** All pieces go through the hop, one after the other; `None` when one is dropped. */
  function ForwardAll(pieces: seq<Datagram>, hop: Hop): Outcome {
    if pieces == [] then Sent([])
    else
      match Forward(pieces[0], hop)
      case Sent(first) =>
        (match ForwardAll(pieces[1..], hop)
         case Sent(rest) => Sent(first + rest)
         case other => other)
      case dropped => dropped
  }

  function Chain(pieces: seq<Datagram>, hops: seq<Hop>): Outcome
    decreases |hops|
  {
    if hops == [] then Sent(pieces)
    else
      match ForwardAll(pieces, hops[0])
      case Sent(next) => Chain(next, hops[1..])
      case dropped => dropped
  }

  lemma {:induction false} TilesJoin(a: seq<Datagram>, b: seq<Datagram>, from: nat, mid: nat, to: nat)
    requires Tiles(a, from, mid) && Tiles(b, mid, to)
    ensures Tiles(a + b, from, to)
  {
    if a == [] {
      assert a + b == b;
    } else {
      TilesJoin(a[1..], b, from + a[0].payload, mid, to);
      assert (a + b)[1..] == a[1..] + b;
    }
  }

  /** Pieces of a first piece, then pieces of the rest. */
  lemma JoinPieces(p: Datagram, first: seq<Datagram>, rest: seq<Datagram>, d: Datagram)
    requires Within(p, d) && p.payload < d.payload && Inner(p) && p.offset == d.offset
    requires PiecesOf(first, p) && PiecesOf(rest, Rest(d, p.payload))
    ensures PiecesOf(first + rest, d)
  {
    var all := first + rest;
    TilesJoin(first, rest, d.offset, d.offset + p.payload, d.offset + d.payload);
    assert all[|all| - 1] == rest[|rest| - 1];
    forall i | 0 <= i < |all| - 1
      ensures Inner(all[i])
    {
      if i >= |first| {
        assert Inner(rest[i - |first|]);
      } else if i < |first| - 1 {
        assert Inner(first[i]);
      }
    }
    RemainderLess(d.payload, p.payload);
  }

  /** Taking the first piece off. */
  lemma RestOfPieces(pieces: seq<Datagram>, d: Datagram)
    requires PiecesOf(pieces, d) && |pieces| > 1
    ensures var p := pieces[0]; Inner(p) && Within(p, d) && p.payload < d.payload && p.offset == d.offset
    ensures PiecesOf(pieces[1..], Rest(d, pieces[0].payload))
  {
    var p, t := pieces[0], pieces[1..];
    assert Inner(p) && Within(p, d);
    TilesLength(t, d.offset + p.payload, d.offset + d.payload);
    RemainderLess(d.payload, p.payload);
    assert t[|t| - 1] == pieces[|pieces| - 1];
    forall i | 0 <= i < |t| - 1
      ensures Inner(t[i])
    {
      assert Inner(pieces[i + 1]);
    }
    LastPositive(pieces, d);
    forall q | q in t
      ensures Within(q, Rest(d, p.payload))
    {
      assert q in pieces && Within(q, d);
    }
  }

  lemma {:induction false} TilesLength(pieces: seq<Datagram>, from: nat, to: nat)
    requires Tiles(pieces, from, to)
    ensures forall p :: p in pieces ==> p.payload <= to - from
    ensures from <= to
  {
    if pieces != [] { TilesLength(pieces[1..], from + pieces[0].payload, to); }
  }

  lemma LastPositive(pieces: seq<Datagram>, d: Datagram)
    requires PiecesOf(pieces, d) && |pieces| > 1
    ensures d.payload > pieces[0].payload && pieces[|pieces| - 1].payload > 0
  {
    assert Inner(pieces[0]);
    TilesLength(pieces, d.offset, d.offset + d.payload);
    TilesLength(pieces[1..], d.offset + pieces[0].payload, d.offset + d.payload);
    assert pieces[0] in pieces && pieces[1..][|pieces| - 2] == pieces[|pieces| - 1];
    assert pieces[|pieces| - 1] in pieces[1..];
  }

  /** A hop that drops nothing keeps the pieces of a datagram its pieces, and all fit. */
  lemma {:induction false} HopKeepsPieces(pieces: seq<Datagram>, hop: Hop, d: Datagram)
    requires PiecesOf(pieces, d) && ForwardAll(pieces, hop).Sent?
    ensures PiecesOf(ForwardAll(pieces, hop).pieces, d)
    ensures forall q :: q in ForwardAll(pieces, hop).pieces ==> Fits(q, hop.mtu)
    decreases |pieces|
  {
    var p := pieces[0];
    ForwardMakesPieces(p, hop);
    var first := Forward(p, hop).pieces;
    if |pieces| == 1 {
      assert pieces[1..] == [] && first + [] == first;
      SamePiece(pieces, first, d);
    } else {
      RestOfPieces(pieces, d);
      HopKeepsPieces(pieces[1..], hop, Rest(d, p.payload));
      JoinPieces(p, first, ForwardAll(pieces[1..], hop).pieces, d);
    }
  }

  /** A single piece is the datagram as far as its pieces are concerned. */
  lemma SamePiece(pieces: seq<Datagram>, first: seq<Datagram>, d: Datagram)
    requires PiecesOf(pieces, d) && |pieces| == 1 && PiecesOf(first, pieces[0])
    ensures PiecesOf(first, d)
  {
    assert pieces[1..] == [] && pieces[0] in pieces;
    assert Tiles([], d.offset + pieces[0].payload, d.offset + d.payload);
    assert Within(pieces[0], d) && pieces[0].payload == d.payload;
  }

  predicate AllFit(pieces: seq<Datagram>, mtu: nat) { forall p :: p in pieces ==> Fits(p, mtu) }

  /** What fits an MTU fits it after any hop. */
  lemma {:induction false} FitsOn(pieces: seq<Datagram>, hop: Hop, mtu: nat)
    requires AllFit(pieces, mtu) && ForwardAll(pieces, hop).Sent?
    ensures AllFit(ForwardAll(pieces, hop).pieces, mtu)
  {
    if pieces != [] {
      ForwardMakesPieces(pieces[0], hop);
      FitsOn(pieces[1..], hop, mtu);
      forall q | q in Forward(pieces[0], hop).pieces
        ensures Fits(q, mtu)
      {
        assert Within(q, pieces[0]) && Fits(pieces[0], mtu);
      }
    }
  }

  lemma {:induction false} FitsThrough(pieces: seq<Datagram>, hops: seq<Hop>, mtu: nat)
    requires AllFit(pieces, mtu) && Chain(pieces, hops).Sent?
    ensures AllFit(Chain(pieces, hops).pieces, mtu)
    decreases |hops|
  {
    if hops != [] {
      FitsOn(pieces, hops[0], mtu);
      FitsThrough(ForwardAll(pieces, hops[0]).pieces, hops[1..], mtu);
    }
  }

  /** Through any chain the pieces that come out tile the payload; all but the last are
      positive multiples of eight bytes; each fits every MTU of the chain. */
  lemma {:induction false} ChainKeepsPieces(pieces: seq<Datagram>, hops: seq<Hop>, d: Datagram)
    requires PiecesOf(pieces, d) && Chain(pieces, hops).Sent?
    ensures PiecesOf(Chain(pieces, hops).pieces, d)
    ensures forall hop :: hop in hops ==> AllFit(Chain(pieces, hops).pieces, hop.mtu)
    decreases |hops|
  {
    if hops != [] {
      HopKeepsPieces(pieces, hops[0], d);
      var next := ForwardAll(pieces, hops[0]).pieces;
      FitsThrough(next, hops[1..], hops[0].mtu);
      ChainKeepsPieces(next, hops[1..], d);
      forall hop | hop in hops
        ensures AllFit(Chain(pieces, hops).pieces, hop.mtu)
      {
        assert hop == hops[0] || hop in hops[1..];
      }
    }
  }

  /** Hops that are counted. */
  function Counted(hops: seq<Hop>): nat {
    if hops == [] then 0 else (if hops[0].loopback then 0 else 1) + Counted(hops[1..])
  }

  predicate Alike(pieces: seq<Datagram>, d: Datagram, ttl: int) {
    forall p :: p in pieces ==> p.header == d.header && p.dontFragment == d.dontFragment && p.ttl == ttl
  }

  lemma {:induction false} HopAlike(pieces: seq<Datagram>, hop: Hop, d: Datagram, ttl: int)
    requires Alike(pieces, d, ttl) && ForwardAll(pieces, hop).Sent?
    ensures Alike(ForwardAll(pieces, hop).pieces, d, TtlBehind(ttl, hop))
  {
    if pieces != [] {
      ForwardOutcome(pieces[0], hop);
      ForwardMakesPieces(pieces[0], hop);
      HopAlike(pieces[1..], hop, d, ttl);
      var first := Forward(pieces[0], hop).pieces;
      forall p | p in first
        ensures Within(p, pieces[0])
      {
      }
    }
  }

  /** All that comes out of a chain has the hop count of what went in, less one for each
      interface that is not a loopback. */
  lemma {:induction false} ChainAges(pieces: seq<Datagram>, hops: seq<Hop>, d: Datagram, ttl: int)
    requires Alike(pieces, d, ttl) && Chain(pieces, hops).Sent?
    ensures Alike(Chain(pieces, hops).pieces, d, ttl - Counted(hops))
    decreases |hops|
  {
    if hops != [] {
      HopAlike(pieces, hops[0], d, ttl);
      ChainAges(ForwardAll(pieces, hops[0]).pieces, hops[1..], d, TtlBehind(ttl, hops[0]));
    }
  }

  /** What happens to pieces that may be fragmented and have room to be. */
  lemma {:induction false} HopReached(pieces: seq<Datagram>, hop: Hop, d: Datagram, ttl: int)
    requires pieces != [] && Alike(pieces, d, ttl) && !d.dontFragment && (hop.mtu > 0 ==> !NoRoom(d, hop))
    ensures ForwardAll(pieces, hop) == TimeExceeded <==> TtlBehind(ttl, hop) < 0
    ensures ForwardAll(pieces, hop).Sent? <==> TtlBehind(ttl, hop) >= 0
    ensures ForwardAll(pieces, hop).Sent? ==> ForwardAll(pieces, hop).pieces != []
  {
    ForwardOutcome(pieces[0], hop);
    if Forward(pieces[0], hop).Sent? {
      ForwardMakesPieces(pieces[0], hop);
      if |pieces| > 1 { HopReached(pieces[1..], hop, d, ttl); }
    }
  }

  predicate RoomOn(d: Datagram, hops: seq<Hop>) { forall hop :: hop in hops ==> hop.mtu > 0 ==> !NoRoom(d, hop) }

  /** Where every MTU leaves room and fragmenting is allowed, a datagram comes through
      exactly if its hop count lasts. */
  lemma {:induction false} ChainReached(pieces: seq<Datagram>, hops: seq<Hop>, d: Datagram, ttl: int)
    requires pieces != [] && Alike(pieces, d, ttl) && !d.dontFragment && RoomOn(d, hops)
    ensures Chain(pieces, hops).Sent? <==> hops == [] || ttl >= Counted(hops)
    ensures Chain(pieces, hops) == TimeExceeded <==> hops != [] && ttl < Counted(hops)
    decreases |hops|
  {
    if hops != [] {
      HopReached(pieces, hops[0], d, ttl);
      if ForwardAll(pieces, hops[0]).Sent? {
        HopAlike(pieces, hops[0], d, ttl);
        ChainReached(ForwardAll(pieces, hops[0]).pieces, hops[1..], d, TtlBehind(ttl, hops[0]));
      }
    }
  }

  /** One datagram through one hop. */
  lemma OneForward(d: Datagram, hop: Hop)
    ensures ForwardAll([d], hop) == Forward(d, hop)
  {
    assert [d][1..] == [];
    if Forward(d, hop).Sent? { assert Forward(d, hop).pieces + [] == Forward(d, hop).pieces; }
  }

  predicate ShortFor(d: Datagram, hops: seq<Hop>) { forall hop :: hop in hops ==> !TooLong(d, hop) }

  /** A datagram that must not be fragmented comes through exactly if its hop count lasts and
      it is too long for no hop, and then whole. */
  lemma {:induction false} ChainUnfragmented(d: Datagram, hops: seq<Hop>)
    requires d.dontFragment
    ensures Chain([d], hops).Sent? <==> hops == [] || (d.ttl >= Counted(hops) && ShortFor(d, hops))
    ensures Chain([d], hops).Sent? ==> Chain([d], hops).pieces == [d.(ttl := d.ttl - Counted(hops))]
    decreases |hops|
  {
    if hops != [] {
      OneForward(d, hops[0]);
      ForwardOutcome(d, hops[0]);
      var a := d.(ttl := TtlBehind(d.ttl, hops[0]));
      ChainUnfragmented(a, hops[1..]);
      ShortOn(d, a, hops);
    }
  }

  lemma ShortOn(d: Datagram, a: Datagram, hops: seq<Hop>)
    requires hops != [] && a == d.(ttl := a.ttl)
    ensures ShortFor(d, hops) <==> !TooLong(d, hops[0]) && ShortFor(a, hops[1..])
  {
    assert forall hop :: hop in hops <==> hop == hops[0] || hop in hops[1..];
    assert forall hop :: TooLong(a, hop) <==> TooLong(d, hop);
  }

  /** The number of pieces that say nothing follows. */
  function Enders(pieces: seq<Datagram>): nat {
    if pieces == [] then 0 else (if pieces[0].moreFragments then 0 else 1) + Enders(pieces[1..])
  }

  lemma {:induction false} OneEnder(pieces: seq<Datagram>)
    requires pieces != [] && !pieces[|pieces| - 1].moreFragments
    requires forall i :: 0 <= i < |pieces| - 1 ==> pieces[i].moreFragments
    ensures Enders(pieces) == 1
  {
    if |pieces| > 1 {
      OneEnder(pieces[1..]);
    } else {
      assert pieces[1..] == [];
    }
  }

  /** A datagram that began with more-fragments clear ends with exactly one such piece. */
  lemma ChainEndsOnce(d: Datagram, hops: seq<Hop>)
    requires Chain([d], hops).Sent? && !d.moreFragments
    ensures PiecesOf(Chain([d], hops).pieces, d) && Enders(Chain([d], hops).pieces) == 1
  {
    assert [d][1..] == [] && PiecesOf([d], d);
    ChainKeepsPieces([d], hops, d);
    var r := Chain([d], hops).pieces;
    forall i | 0 <= i < |r| - 1
      ensures r[i].moreFragments
    {
      assert Inner(r[i]);
    }
    OneEnder(r);
  }
}
