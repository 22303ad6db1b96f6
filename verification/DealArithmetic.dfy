/**
 Deal arithmetic: the storage price, the piece sizes around the padding call, and
 the proposal built from them. `big.Div` is Euclidean, as `/` is here; sizes are
 uint64 and epochs int64.
 */
module DealArithmetic {
  import opened Common

  const GIB: nat := 0x4000_0000
  const WEEK_IN_EPOCHS: int := 60 * 2 * 24 * 7

  /** Go's conversion of a uint64 to an int64. */
  function ToInt64(n: nat): int
    requires n < UINT64_SIZE
  {
    if n < UINT64_SIZE / 2 then n else n - UINT64_SIZE
  }

  /** int64 addition. */
  function AddEpochs(a: int, b: int): int {
    (a + b + UINT64_SIZE / 2) % UINT64_SIZE - UINT64_SIZE / 2
  }

  function PricePerEpoch(price: int, size: nat): int
    requires size < UINT64_SIZE
  {
    ToInt64(size) * price / GIB
  }

  function ComputePrice(askPrice: int, size: nat, duration: int): int
    requires size < UINT64_SIZE
  {
    PricePerEpoch(askPrice, size) * duration
  }

  // ----- price laws -----

  lemma MulMono(a: int, b: int, c: int)
    requires a <= b && c >= 0
    ensures a * c <= b * c
  {
  }

  /** The computed price of a size that an int64 can hold is the exact one rounded down epoch by epoch. */
  lemma BoundsOfInt64(price: int, size: int, duration: int)
    requires duration > 0
    ensures var c := size * price / GIB * duration;
            c * GIB <= size * price * duration < (c + duration) * GIB
  {
    var x := size * price;
    var q := x / GIB;
    assert q * GIB <= x <= q * GIB + GIB - 1;
    MulMono(q * GIB, x, duration);
    MulMono(x, q * GIB + GIB - 1, duration);
    assert (q * GIB) * duration == (q * duration) * GIB;
    assert (q * GIB + GIB - 1) * duration == (q * duration + duration) * GIB - duration;
  }

  lemma LargeSizeCostsLess(price: int, size: nat, duration: int)
    requires UINT64_SIZE / 2 <= size < UINT64_SIZE && duration > 0 && price > 0
    ensures ComputePrice(price, size, duration) < 0
    ensures (ComputePrice(price, size, duration) + duration) * GIB <= size * price * duration
  {
    var x, q := ToInt64(size) * price, PricePerEpoch(price, size);
    assert x == size * price - UINT64_SIZE * price;
    MulMono(1, price, -ToInt64(size));
    assert x < 0 && q <= -1;
    MulMono(q, -1, duration);
    MulMono(q * GIB + GIB, size * price, duration);
    assert (q * GIB + GIB) * duration == (q * duration + duration) * GIB;
  }

  lemma LargeSizeCostsMore(price: int, size: nat, duration: int)
    requires UINT64_SIZE / 2 <= size < UINT64_SIZE && duration > 0 && price < 0
    ensures ComputePrice(price, size, duration) * GIB > size * price * duration
  {
    var x, q := ToInt64(size) * price, PricePerEpoch(price, size);
    assert x == size * price - UINT64_SIZE * price;
    assert q * GIB >= size * price + 1;
    MulMono(size * price + 1, q * GIB, duration);
    assert (q * GIB) * duration == (q * duration) * GIB;
    assert (size * price + 1) * duration == size * price * duration + duration;
  }

  /** A size of 2^63 or more is taken for the negative number 2^64 below it. */
  lemma LargeSizeIsMispriced(price: int, size: nat, duration: int)
    requires UINT64_SIZE / 2 <= size < UINT64_SIZE && duration > 0 && price != 0
    ensures var c := ComputePrice(price, size, duration);
            !(c * GIB <= size * price * duration < (c + duration) * GIB)
    ensures price > 0 ==> ComputePrice(price, size, duration) < 0
  {
    if price > 0 {
      LargeSizeCostsLess(price, size, duration);
    } else {
      LargeSizeCostsMore(price, size, duration);
    }
  }

  /**
   The computed price never exceeds the exact one and falls short of it by less
   than one unit per epoch, for exactly the sizes below 2^63 (or a price of 0).
   */
  lemma PriceBounds(price: int, size: nat, duration: int)
    requires size < UINT64_SIZE && duration > 0
    ensures var c := ComputePrice(price, size, duration);
            (c * GIB <= size * price * duration < (c + duration) * GIB) <==> size < UINT64_SIZE / 2 || price == 0
  {
    if size < UINT64_SIZE / 2 {
      BoundsOfInt64(price, size, duration);
    } else if price != 0 {
      LargeSizeIsMispriced(price, size, duration);
    }
  }

  lemma DivMono(a: int, b: int)
    requires a <= b
    ensures a / GIB <= b / GIB
  {
  }

  /** Sizes that an int64 can hold are priced in their order. */
  lemma OrderedPrices(price: int, size: nat, duration: int, price': int, size': nat, duration': int)
    requires 0 <= price <= price' && size <= size' < UINT64_SIZE / 2 && 0 <= duration <= duration'
    ensures 0 <= ComputePrice(price, size, duration) <= ComputePrice(price', size', duration')
  {
    MulMono(size, size', price);
    MulMono(price, price', size');
    DivMono(size * price, size' * price');
    DivMono(0, size * price);
    var q, q' := PricePerEpoch(price, size), PricePerEpoch(price', size');
    MulMono(q, q', duration);
    MulMono(duration, duration', q');
    MulMono(0, q, duration);
  }

  /** No deal for less costs more than this one. */
  ghost predicate CostsMost(price: int, size: nat, duration: int)
    requires size < UINT64_SIZE
  {
    forall p, s: nat, d :: 0 <= p <= price && s <= size && 0 <= d <= duration ==>
      ComputePrice(p, s, d) <= ComputePrice(price, size, duration)
  }

  /** The price grows with the ask, the size and the duration, up to exactly the sizes below 2^63. */
  lemma PriceMonotone(price: int, size: nat, duration: int)
    requires 0 <= price && size < UINT64_SIZE && 0 <= duration
    ensures CostsMost(price, size, duration) <==> size < UINT64_SIZE / 2 || price == 0 || duration == 0
  {
    if size < UINT64_SIZE / 2 {
      forall p, s: nat, d | 0 <= p <= price && s <= size && 0 <= d <= duration
        ensures ComputePrice(p, s, d) <= ComputePrice(price, size, duration)
      {
        OrderedPrices(p, s, d, price, size, duration);
      }
    } else if price > 0 && duration > 0 {
      LargeSizeIsMispriced(price, size, duration);
      assert ComputePrice(price, 0, duration) == 0;
    }
  }

  /** Two pieces cost no more than one piece of their size, and save at most `duration`. */
  predicate SavesLittle(price: int, a: nat, b: nat, duration: int)
    requires a + b < UINT64_SIZE
  {
    var split := ComputePrice(price, a, duration) + ComputePrice(price, b, duration);
    split <= ComputePrice(price, a + b, duration) <= split + duration
  }

  lemma SplitAcross(price: int, a: nat, b: nat, duration: int)
    requires a + b < UINT64_SIZE && ToInt64(a) + ToInt64(b) != ToInt64(a + b)
    requires duration > 0 && price != 0
    ensures !SavesLittle(price, a, b, duration)
  {
    var p, q, r := PricePerEpoch(price, a), PricePerEpoch(price, b), PricePerEpoch(price, a + b);
    var k := UINT64_SIZE / GIB;
    assert ToInt64(a + b) == ToInt64(a) + ToInt64(b) - UINT64_SIZE;
    assert ToInt64(a + b) * price == ToInt64(a) * price + ToInt64(b) * price - (k * price) * GIB;
    assert p + q <= r + k * price <= p + q + 1;
    assert (p + q) * duration == p * duration + q * duration;
    if price > 0 {
      MulMono(r, p + q - 1, duration);
      assert (p + q - 1) * duration == (p + q) * duration - duration;
    } else {
      MulMono(p + q + 2, r, duration);
      assert (p + q + 2) * duration == (p + q) * duration + 2 * duration;
    }
  }

  lemma SplitWithin(price: int, a: nat, b: nat, duration: int)
    requires a + b < UINT64_SIZE && ToInt64(a) + ToInt64(b) == ToInt64(a + b) && duration >= 0
    ensures SavesLittle(price, a, b, duration)
  {
    var p, q, r := PricePerEpoch(price, a), PricePerEpoch(price, b), PricePerEpoch(price, a + b);
    assert ToInt64(a + b) * price == ToInt64(a) * price + ToInt64(b) * price;
    assert p + q <= r <= p + q + 1;
    MulMono(p + q, r, duration);
    MulMono(r, p + q + 1, duration);
    assert (p + q) * duration == p * duration + q * duration;
    assert (p + q + 1) * duration == p * duration + q * duration + duration;
  }

  /** This holds unless only the joint size is too large for an int64. */
  lemma SplittingSavesLittle(price: int, a: nat, b: nat, duration: int)
    requires a + b < UINT64_SIZE && duration >= 0
    ensures SavesLittle(price, a, b, duration) <==>
            !(a < UINT64_SIZE / 2 && b < UINT64_SIZE / 2 <= a + b) || price == 0 || duration == 0
  {
    if ToInt64(a) + ToInt64(b) == ToInt64(a + b) {
      SplitWithin(price, a, b, duration);
    } else if price != 0 && duration != 0 {
      SplitAcross(price, a, b, duration);
    }
  }

  // ----- piece sizes -----

  /** `UnpaddedPieceSize.Padded`. */
  function Padded(size: nat): nat { Wrap64(size + size / 127) }

  /** `PaddedPieceSize.Unpadded`. */
  function Unpadded(size: nat): nat { size - size / 128 }

  /** What the round trip of a size through the padding call yields: a size just below a multiple of 128 moves up. */
  function RoundTripped(size: nat): nat { if size % 128 == 127 then Wrap64(size + 1) else size }

  /** Unpadding and padding again is the identity on exactly the sizes not congruent to 127 modulo 128. */
  lemma PaddingRoundTrip(size: nat)
    requires size < UINT64_SIZE
    ensures Padded(Unpadded(size)) == size <==> size % 128 != 127
    ensures Padded(Unpadded(size)) == RoundTripped(size)
  {
    var q, r := size / 128, size % 128;
    assert Unpadded(size) == 127 * q + r;
    assert (127 * q + r) / 127 == if r == 127 then q + 1 else q;
  }

  // ----- the proposal -----

  type Cid = string

  datatype PieceInfo = PieceInfo(cid: Option<Cid>, size: nat, payloadSize: nat)

  /** The configuration after all options; epoch 0 and no price mean "not given". */
  datatype DealConfig = DealConfig(
    verified: bool, minSize: nat, pieceInfo: PieceInfo,
    startEpoch: int, endEpoch: int, pricePerEpoch: Option<int>)

  datatype Computed = Computed(cid: Cid, payloadSize: nat, unpaddedSize: nat)

  /** Outcomes of the outside calls; `pad` is the commitment padding library. */
  datatype Replies = Replies(
    computed: Option<Computed>,
    pad: (Cid, nat, nat) -> Option<Cid>,
    head: Option<int>,
    minCollateral: (nat, bool) -> Option<int>,   // for a piece size, verified or not
    labelled: bool,
    encoded: bool)

  datatype Proposal = Proposal(
    pieceCid: Cid, pieceSize: nat, verified: bool, startEpoch: int, endEpoch: int,
    pricePerEpoch: int, providerCollateral: int, clientCollateral: int)

  /** `ZeroPadPieceCommitment` takes unpadded sizes and hands padded ones to the library. */
  function ZeroPadPieceCommitment(pad: (Cid, nat, nat) -> Option<Cid>, c: Cid, curSize: nat, toSize: nat): Option<Cid> {
    pad(c, Padded(curSize), Padded(toSize))
  }

  /** The piece before any padding: the supplied one, or else the computed one. */
  function Piece(cfg: DealConfig, r: Replies): Option<(Cid, nat)> {
    if cfg.pieceInfo.cid.Some? then Some((cfg.pieceInfo.cid.value, cfg.pieceInfo.size))
    else if r.computed.Some? then Some((r.computed.value.cid, Padded(r.computed.value.unpaddedSize)))
    else None
  }

  predicate IsInt64(n: int) { -(UINT64_SIZE / 2) <= n < UINT64_SIZE / 2 }

  /** Sizes are uint64, epochs int64. */
  predicate InputsFit(cfg: DealConfig, duration: int, r: Replies) {
    && cfg.minSize < UINT64_SIZE && cfg.pieceInfo.size < UINT64_SIZE
    && (r.computed.Some? ==> r.computed.value.unpaddedSize < UINT64_SIZE)
    && IsInt64(cfg.startEpoch) && IsInt64(cfg.endEpoch) && IsInt64(duration)
    && (r.head.Some? ==> IsInt64(r.head.value))
  }

  function Max(a: nat, b: nat): nat { if a < b then b else a }

  /** The piece that is proposed: raised to the configured minimum size if it is smaller. */
  function ProposedPiece(cfg: DealConfig, r: Replies): Option<(Cid, nat)> {
    match Piece(cfg, r)
    case None => None
    case Some((c, size)) =>
      if size >= cfg.minSize then Some((c, size))
      else
        match ZeroPadPieceCommitment(r.pad, c, Unpadded(size), Unpadded(cfg.minSize))
        case None => None
        case Some(padded) => Some((padded, cfg.minSize))
  }

  /** A week from the chain head unless given. */
  function StartEpoch(cfg: DealConfig, head: int): int {
    if cfg.startEpoch == 0 then AddEpochs(head, WEEK_IN_EPOCHS) else cfg.startEpoch
  }

  /** The proposal as a function of the configuration and the outside calls; every error is `None`. */
  function ProposalFor(cfg: DealConfig, price: int, duration: int, r: Replies): Option<Proposal>
    requires InputsFit(cfg, duration, r)
  {
    if ProposedPiece(cfg, r).None? || r.head.None? then None
    else
      var (c, size) := ProposedPiece(cfg, r).value;
      var minCollateral := r.minCollateral(size, cfg.verified);
      if minCollateral.None? || !r.labelled || !r.encoded then None
      else
        var start := StartEpoch(cfg, r.head.value);
        var end := if cfg.endEpoch == 0 then AddEpochs(start, duration) else cfg.endEpoch;
        var perEpoch := if cfg.pricePerEpoch.None? then PricePerEpoch(price, size) else cfg.pricePerEpoch.value;
        Some(Proposal(c, size, cfg.verified, start, end, perEpoch, minCollateral.value * 11 / 10, 0))
  }

  /** `MakeDealUnsigned`, which fills in a local copy of the configuration step by step. */
  method MakeDealUnsigned(config: DealConfig, price: int, duration: int, r: Replies) returns (proposal: Option<Proposal>)
    requires InputsFit(config, duration, r)
    ensures proposal == ProposalFor(config, price, duration, r)
  {
    var cfg := config;
    if cfg.pieceInfo.cid.None? {
      if r.computed.None? {
        return None;
      }
      var c := r.computed.value;
      cfg := cfg.(pieceInfo := PieceInfo(Some(c.cid), Padded(c.unpaddedSize), c.payloadSize));
    }
    if cfg.pieceInfo.size < cfg.minSize {
      var padded := ZeroPadPieceCommitment(r.pad, cfg.pieceInfo.cid.value, Unpadded(cfg.pieceInfo.size), Unpadded(cfg.minSize));
      if padded.None? {
        return None;
      }
      cfg := cfg.(pieceInfo := cfg.pieceInfo.(cid := padded, size := cfg.minSize));
    }
    if r.head.None? {
      return None;
    }
    var minCollateral := r.minCollateral(cfg.pieceInfo.size, cfg.verified);
    if minCollateral.None? {
      return None;
    }
    var provCol := minCollateral.value * 11 / 10;
    if cfg.startEpoch == 0 {
      cfg := cfg.(startEpoch := AddEpochs(r.head.value, WEEK_IN_EPOCHS));
    }
    if cfg.endEpoch == 0 {
      cfg := cfg.(endEpoch := AddEpochs(cfg.startEpoch, duration));
    }
    if cfg.pricePerEpoch.None? {
      cfg := cfg.(pricePerEpoch := Some(ToInt64(cfg.pieceInfo.size) * price / GIB));
    }
    if !r.labelled || !r.encoded {
      return None;
    }
    return Some(Proposal(cfg.pieceInfo.cid.value, cfg.pieceInfo.size, cfg.verified, cfg.startEpoch, cfg.endEpoch,
                         cfg.pricePerEpoch.value, provCol, 0));
  }

  /** int64 addition is exact precisely when the sum fits. */
  lemma AddEpochsExact(a: int, b: int)
    ensures AddEpochs(a, b) == a + b <==> IsInt64(a + b)
  {
  }

  /** The padded form has a block of 128 for every 127, so that is how the two size conversions correspond. */
  lemma PaddedBlocks(blocks: nat)
    requires 128 * blocks < UINT64_SIZE
    ensures Padded(127 * blocks) == 128 * blocks && Unpadded(128 * blocks) == 127 * blocks
  {
  }

  /** The piece a proposal starts from: the one supplied, or the one computed if none is. */
  ghost predicate StartsFrom(cfg: DealConfig, r: Replies, c: Cid, size: nat) {
    match cfg.pieceInfo.cid
    case Some(supplied) => c == supplied && size == cfg.pieceInfo.size
    case None => r.computed.Some? && c == r.computed.value.cid && size == Padded(r.computed.value.unpaddedSize)
  }

  /** The piece can be proposed: it is large enough, or the library can pad its commitment to the minimum size. */
  ghost predicate CanBeProposed(cfg: DealConfig, r: Replies, c: Cid, size: nat) {
    size >= cfg.minSize || r.pad(c, RoundTripped(size), RoundTripped(cfg.minSize)).Some?
  }

  /**
   There is a proposal exactly if every call that is needed answers: the piece
   computation only without a supplied piece, the padding only below the minimum
   size, the others always.
   */
  lemma ProposalExistsExactly(cfg: DealConfig, price: int, duration: int, r: Replies)
    requires InputsFit(cfg, duration, r)
    ensures ProposalFor(cfg, price, duration, r).Some? <==>
            && r.head.Some? && r.labelled && r.encoded
            && exists c, size: nat :: StartsFrom(cfg, r, c, size) && CanBeProposed(cfg, r, c, size)
                 && r.minCollateral(if size < cfg.minSize then cfg.minSize else size, cfg.verified).Some?
  {
    if Piece(cfg, r).Some? {
      var (c, size) := Piece(cfg, r).value;
      assert StartsFrom(cfg, r, c, size);
      PaddingRoundTrip(size);
      PaddingRoundTrip(cfg.minSize);
    }
  }

  /**
   The proposed size is the greater of the piece's and the configured minimum. A
   smaller piece gets the commitment the library computes between exactly those
   two sizes (after their round trip, the identity on every valid size); another
   keeps its own.
   */
  lemma ProposedSizeAndCommitment(cfg: DealConfig, price: int, duration: int, r: Replies)
    requires InputsFit(cfg, duration, r) && ProposalFor(cfg, price, duration, r).Some?
    ensures var p := ProposalFor(cfg, price, duration, r).value;
            exists c, size: nat :: StartsFrom(cfg, r, c, size)
              && p.pieceSize == (if size < cfg.minSize then cfg.minSize else size)
              && (size >= cfg.minSize ==> p.pieceCid == c)
              && (size < cfg.minSize ==> r.pad(c, RoundTripped(size), RoundTripped(cfg.minSize)) == Some(p.pieceCid))
  {
    var (c, size) := Piece(cfg, r).value;
    assert StartsFrom(cfg, r, c, size);
    PaddingRoundTrip(size);
    PaddingRoundTrip(cfg.minSize);
  }

  /**
   The terms of a proposal. What the configuration gives is kept as it is given.
   Without a start epoch the deal starts 20160 epochs (a week) after the chain
   head, and without an end epoch it lasts for the duration, where that fits in 64
   bits. Without a price per epoch, it is that of the proposed size. The provider's
   collateral is eleven tenths of the minimum for the proposed size, rounded down;
   the client offers none.
   */
  lemma ProposedTerms(cfg: DealConfig, price: int, duration: int, r: Replies)
    requires InputsFit(cfg, duration, r) && ProposalFor(cfg, price, duration, r).Some?
    ensures r.head.Some?
    ensures var p := ProposalFor(cfg, price, duration, r).value;
            var minimum := r.minCollateral(p.pieceSize, cfg.verified);
            minimum.Some? && 10 * p.providerCollateral <= 11 * minimum.value < 10 * p.providerCollateral + 10
    ensures var p := ProposalFor(cfg, price, duration, r).value;
            && p.verified == cfg.verified && p.clientCollateral == 0
            && (cfg.startEpoch != 0 ==> p.startEpoch == cfg.startEpoch)
            && (cfg.startEpoch == 0 && IsInt64(r.head.value + 20160) ==> p.startEpoch == r.head.value + 20160)
            && (cfg.endEpoch != 0 ==> p.endEpoch == cfg.endEpoch)
            && (cfg.endEpoch == 0 && IsInt64(p.startEpoch + duration) ==> p.endEpoch == p.startEpoch + duration)
            && (cfg.pricePerEpoch.Some? ==> p.pricePerEpoch == cfg.pricePerEpoch.value)
            && (cfg.pricePerEpoch.None? ==> p.pricePerEpoch == ComputePrice(price, p.pieceSize, 1))
            && (cfg.pricePerEpoch.None? && p.pieceSize < UINT64_SIZE / 2 ==>
                p.pricePerEpoch * GIB <= p.pieceSize * price < (p.pricePerEpoch + 1) * GIB)
  {
    var p := ProposalFor(cfg, price, duration, r).value;
    AddEpochsExact(r.head.value, WEEK_IN_EPOCHS);
    AddEpochsExact(p.startEpoch, duration);
    if p.pieceSize < UINT64_SIZE / 2 {
      BoundsOfInt64(price, p.pieceSize, 1);
    }
  }

  lemma NoZeroDivisor(a: int, b: int)
    ensures a * b == 0 <==> a == 0 || b == 0
  {
  }

  /** A rate over a term is the rate over the duration, exactly when the two are the same or nothing is paid. */
  lemma SameCost(rate: int, term: int, duration: int)
    ensures rate * term == rate * duration <==> rate == 0 || term == duration
  {
    assert rate * term - rate * duration == rate * (term - duration);
    NoZeroDivisor(rate, term - duration);
  }

  /**
   With neither end epoch nor price given, what the proposal pays over its whole
   term is what `ComputePrice` quotes for the proposed size and duration, exactly
   when the end epoch fits in 64 bits or that size is free of charge per epoch.
   */
  lemma ProposalCostsQuotedPrice(cfg: DealConfig, price: int, duration: int, r: Replies)
    requires InputsFit(cfg, duration, r) && ProposalFor(cfg, price, duration, r).Some?
    requires cfg.endEpoch == 0 && cfg.pricePerEpoch.None?
    ensures Piece(cfg, r).Some? && r.head.Some?
    ensures var p, size := ProposalFor(cfg, price, duration, r).value, Max(Piece(cfg, r).value.1, cfg.minSize);
            p.pricePerEpoch * (p.endEpoch - p.startEpoch) == ComputePrice(price, size, duration)
            <==> PricePerEpoch(price, size) == 0 || IsInt64(StartEpoch(cfg, r.head.value) + duration)
  {
    var p, start := ProposalFor(cfg, price, duration, r).value, StartEpoch(cfg, r.head.value);
    AddEpochsExact(start, duration);
    SameCost(p.pricePerEpoch, AddEpochs(start, duration) - start, duration);
  }

  /** A deal from epoch 1 over the longest duration: its end wraps around to before its start, and it pays a negative total. */
  lemma OverflowingTermIsMispriced()
    ensures var cfg := DealConfig(false, 0, PieceInfo(Some("piece"), GIB, 0), 1, 0, None);
            var r := Replies(None, (c, from, to) => None, Some(0), (size, verified) => Some(0), true, true);
            var duration := UINT64_SIZE / 2 - 1;
            && InputsFit(cfg, duration, r) && ProposalFor(cfg, 1, duration, r).Some?
            && var p := ProposalFor(cfg, 1, duration, r).value;
               p.pricePerEpoch * (p.endEpoch - p.startEpoch) < 0 < ComputePrice(1, GIB, duration)
  {
    assert GIB * 1 / GIB == 1;
    assert AddEpochs(1, UINT64_SIZE / 2 - 1) == -(UINT64_SIZE / 2);
  }
}
