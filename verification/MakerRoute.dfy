/** Stitching two route legs into the circular path of a swap (src/cli.rs,
    `maker_execute`). */
module MakerRoute {
  import opened Prelude
  import opened SwapString
  import Intercept

  /** A 64-bit channel id, as the set of its one bits: union is bitwise or,
      difference masks bits out. */
  type Scid = bits: set<nat> | forall b :: b in bits ==> b < 64

  /** A hop pays `node` over the channel `scid`. */
  datatype Hop = Hop(node: nat, scid: Scid, feeMsat: u64, rgbAmount: Option<u64>, paymentAmount: u64)

  /** A channel graph: the two ends a short channel id joins. */
  type Graph = map<Scid, (nat, nat)>

  ghost predicate Connected(g: Graph, start: nat, hops: seq<Hop>, end: nat)
    decreases |hops|
  {
    if hops == [] then start == end
    else hops[0].scid in g && g[hops[0].scid] == (start, hops[0].node) && Connected(g, hops[0].node, hops[1..], end)
  }

  /** The hop at one position of the circular path, given the maker's side of
      the swap and the flag that marks a swap hop. */
  function HopAt(first: seq<Hop>, second: seq<Hop>, side: SwapType, flag: Scid, i: nat): Hop
    requires i < |first| + |second|
  {
    var hop := if i < |first| then first[i] else second[i - |first|];
    var flagged := if i == |first| then hop.(scid := hop.scid + flag) else hop;
    var lastFee := if side.BuyAsset? then Intercept.HTLC_MIN_MSAT else 0;
    var paid := if i + 1 == |first| then flagged.(feeMsat := lastFee) else flagged;
    if (i < |first|) == side.SellAsset?
    then paid.(rgbAmount := Some(side.amountRgb), paymentAmount := Intercept.HTLC_MIN_MSAT)
    else paid
  }

  function Stitched(first: seq<Hop>, second: seq<Hop>, side: SwapType, flag: Scid): seq<Hop> {
    seq(|first| + |second|, i requires 0 <= i < |first| + |second| => HopAt(first, second, side, flag, i))
  }

  function Coloured(hops: seq<Hop>, rgb: u64): seq<Hop> {
    seq(|hops|, i requires 0 <= i < |hops| =>
      hops[i].(rgbAmount := Some(rgb), paymentAmount := Intercept.HTLC_MIN_MSAT))
  }

  /** The legs' hops are changed in place before they are copied into the path;
      `side` is the maker's, the opposite of the offer's. */
  method Stitch(first: array<Hop>, second: array<Hop>, side: SwapType, flag: Scid) returns (full: seq<Hop>)
    requires first != second && first.Length > 0 && second.Length > 0
    modifies first, second
    ensures full == Stitched(old(first[..]), old(second[..]), side, flag)
  {
    second[0] := second[0].(scid := second[0].scid + flag);
    var last := first.Length - 1;
    if side.BuyAsset? {
      first[last] := first[last].(feeMsat := Intercept.HTLC_MIN_MSAT);
    } else {
      first[last] := first[last].(feeMsat := 0);
    }
    full := (if side.SellAsset? then Coloured(first[..], side.amountRgb) else first[..])
            + (if side.BuyAsset? then Coloured(second[..], side.amountRgb) else second[..]);
  }

  /** The path with the swap flag masked out of every channel id. */
  function Unflagged(hops: seq<Hop>, flag: Scid): seq<Hop> {
    seq(|hops|, i requires 0 <= i < |hops| => Unflag(hops[i], flag))
  }

  function Unflag(hop: Hop, flag: Scid): Hop {
    hop.(scid := hop.scid - flag)
  }

  predicate Flagged(hop: Hop, flag: Scid) {
    hop.scid * flag != {}
  }

  /** The swap flag marks the first hop out of the taker, and no hop the router
      left unmarked besides it; masking gives back exactly the router's
      unmarked ids. */
  lemma FlagMarksTheTaker(first: seq<Hop>, second: seq<Hop>, side: SwapType, flag: Scid, i: nat)
    requires flag != {} && i < |first| + |second|
    ensures var hop, was := Stitched(first, second, side, flag)[i], (first + second)[i];
            && (Flagged(hop, flag) <==> i == |first| || Flagged(was, flag))
            && (Unflag(hop, flag).scid == was.scid <==> !Flagged(was, flag))
  {
    var hop, was := Stitched(first, second, side, flag)[i], (first + second)[i];
    assert hop.scid == if i == |first| then was.scid + flag else was.scid;
    assert hop.scid - flag == was.scid - flag;
    if Flagged(was, flag) {
      var bit :| bit in was.scid * flag;
      assert bit !in was.scid - flag;
    } else {
      assert forall bit :: bit in was.scid && bit in flag ==> bit in was.scid * flag;
      assert was.scid - flag == was.scid;
    }
    if i == |first| {
      assert hop.scid * flag == flag;
    }
  }

  /** Besides the flag, stitching overrides the fee of the first leg's last hop
      and the amounts of the maker's asset leg; all else stays, in order. */
  lemma StitchTouchesOnly(first: seq<Hop>, second: seq<Hop>, side: SwapType, flag: Scid, i: nat)
    requires i < |first| + |second|
    ensures var hop, was := Stitched(first, second, side, flag)[i], (first + second)[i];
            var minimum := Intercept.HTLC_MIN_MSAT;
            && hop.node == was.node
            && hop.feeMsat == (if i != |first| - 1 then was.feeMsat else if side.BuyAsset? then minimum else 0)
            && (if side.SellAsset? <==> i < |first|
                then hop.rgbAmount == Some(side.amountRgb) && hop.paymentAmount == minimum
                else hop.rgbAmount == was.rgbAmount && hop.paymentAmount == was.paymentAmount)
  {}

  lemma {:induction false} SameLinks(g: Graph, start: nat, a: seq<Hop>, b: seq<Hop>, end: nat)
    requires |a| == |b| && Connected(g, start, a, end)
    requires forall i :: 0 <= i < |a| ==> a[i].node == b[i].node && a[i].scid == b[i].scid
    ensures Connected(g, start, b, end)
    decreases |a|
  {
    if a != [] {
      SameLinks(g, a[0].node, a[1..], b[1..], end);
    }
  }

  lemma {:induction false} ConnectedAppend(g: Graph, start: nat, a: seq<Hop>, middle: nat, b: seq<Hop>, end: nat)
    requires Connected(g, start, a, middle) && Connected(g, middle, b, end)
    ensures Connected(g, start, a + b, end)
    decreases |a|
  {
    if a == [] {
      assert a + b == b;
    } else {
      ConnectedAppend(g, a[0].node, a[1..], middle, b, end);
      assert (a + b)[1..] == a[1..] + b;
    }
  }

  /** Two connected legs, maker to taker and taker to maker, make one connected
      circular path once the flag is masked. */
  lemma StitchedIsCircular(g: Graph, maker: nat, taker: nat, first: seq<Hop>, second: seq<Hop>,
                           side: SwapType, flag: Scid)
    requires Connected(g, maker, first, taker) && Connected(g, taker, second, maker)
    requires flag != {} && forall hop :: hop in first + second ==> !Flagged(hop, flag)
    ensures Connected(g, maker, Unflagged(Stitched(first, second, side, flag), flag), maker)
  {
    var legs, path := first + second, Unflagged(Stitched(first, second, side, flag), flag);
    ConnectedAppend(g, maker, first, taker, second, maker);
    forall i | 0 <= i < |legs| ensures path[i].node == legs[i].node && path[i].scid == legs[i].scid {
      assert legs[i] in legs;
      FlagMarksTheTaker(first, second, side, flag, i);
      StitchTouchesOnly(first, second, side, flag, i);
    }
    SameLinks(g, maker, legs, path, maker);
  }

  /** Legs as the router gives them: there are hops, and they carry no asset. */
  predicate Plain(first: seq<Hop>, second: seq<Hop>) {
    first != [] && second != [] && forall hop :: hop in first + second ==> hop.rgbAmount == None
  }

  /** The HTLC arrives over the path stitched for a trade: its amounts are those
      of the hops on both sides of the taker. */
  ghost predicate CarriesStitched(trade: Trade, first: seq<Hop>, second: seq<Hop>, flag: Scid, htlc: Intercept.Htlc) {
    && Plain(first, second)
    && (var full := Stitched(first, second, trade.swapType.Opposite(), flag);
        htlc.inRgb == full[|first| - 1].rgbAmount && htlc.outRgb == full[|first|].rgbAmount)
  }

  /** What the path does not settle by itself: the taker's two channels, and the
      difference between what it receives and passes on, which at zero msats
      only has to be saturated away. */
  predicate ChannelsAndMsatsFit(trade: Trade, htlc: Intercept.Htlc) {
    var msats := trade.swapType.amountMsats;
    if trade.swapType.BuyAsset?
    then htlc.inContract == Some(trade.contract) && htlc.outContract == None &&
         (var paid := htlc.outMsat - SaturatingSub(htlc.inMsat, Intercept.HTLC_MIN_MSAT);
          paid == msats || (msats == 0 && paid < 0))
    else htlc.outContract == Some(trade.contract) && htlc.inContract == None &&
         (var earned := htlc.inMsat - htlc.outMsat;
          earned == msats || (msats == 0 && earned < 0))
  }

  /** A path the maker stitches for an offer carries the asset on exactly the leg
      its taker inspects, so only channels and msats are left to decide. */
  lemma StitchedPathMeetsTheTaker(trade: Trade, first: seq<Hop>, second: seq<Hop>, flag: Scid, htlc: Intercept.Htlc)
    requires CarriesStitched(trade, first, second, flag, htlc)
    ensures trade.swapType.BuyAsset? ==> htlc.inRgb == Some(trade.swapType.amountRgb) && htlc.outRgb == None
    ensures trade.swapType.SellAsset? ==> htlc.outRgb == Some(trade.swapType.amountRgb) && htlc.inRgb == None
    ensures Intercept.Settles(trade, htlc) <==> ChannelsAndMsatsFit(trade, htlc)
  {
    assert first[|first| - 1] in first + second && second[0] in first + second;
  }
}
