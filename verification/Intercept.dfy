/** The taker's side of a swap: whitelisting trades and deciding intercepted
    HTLCs (src/main.rs, `HTLCIntercepted`). */
module Intercept {
  import opened Prelude
  import opened SwapString

  const HTLC_MIN_MSAT: u64 := 3_000_000

  /** An intercepted HTLC. The contracts are those of the inbound and outbound
      channels, None for a channel that carries no asset. */
  datatype Htlc = Htlc(
    isSwap: bool, hash: PaymentHash, id: nat, nextScid: nat,
    inMsat: u64, outMsat: u64, inRgb: Option<u64>, outRgb: Option<u64>,
    inContract: Option<ContractId>, outContract: Option<ContractId>)

  datatype Call = Fail(id: nat) | Forward(id: nat, scid: nat, msat: u64, rgb: Option<u64>)

  type Forwarding = c: Call | c.Forward? witness Forward(0, 0, 0, None)

  datatype Event = Whitelist(hash: PaymentHash, trade: Trade) | Intercepted(htlc: Htlc)

  datatype Entry =
    | Whitelisted(hash: PaymentHash, trade: Trade, replaced: bool)
    | Forwarded(trade: Trade, htlc: Htlc, sent: Forwarding)
    | Rejected(htlc: Htlc)

  type Whitelisting = map<PaymentHash, Trade>

  datatype TakerState = TakerState(whitelist: Whitelisting, log: seq<Entry>, calls: seq<Call>)

  /** What an accepted HTLC does for the taker, in exact arithmetic. The minimum
      that always travels with an asset payment is not counted as paid. */
  predicate Settles(trade: Trade, htlc: Htlc) {
    match trade.swapType
    case BuyAsset(rgb, msats) =>
      && htlc.inRgb == Some(rgb)
      && htlc.inContract == Some(trade.contract)
      && htlc.outContract == None
      && (var paid := htlc.outMsat - htlc.inMsat + Min(htlc.inMsat, HTLC_MIN_MSAT);
          if msats > 0 then paid == msats else paid <= 0)
    case SellAsset(rgb, msats) =>
      && htlc.outRgb == Some(rgb)
      && htlc.outContract == Some(trade.contract)
      && htlc.inContract == None
      && (var earned := htlc.inMsat - htlc.outMsat;
          if msats > 0 then earned == msats else earned <= 0)
  }

  predicate Accepts(whitelist: Whitelisting, htlc: Htlc) {
    htlc.hash in whitelist && Settles(whitelist[htlc.hash], htlc)
  }

  function Decision(whitelist: Whitelisting, htlc: Htlc): Call {
    if Accepts(whitelist, htlc) then Forward(htlc.id, htlc.nextScid, htlc.outMsat, htlc.outRgb) else Fail(htlc.id)
  }

  function Next(s: TakerState, ev: Event): TakerState {
    match ev
    case Whitelist(hash, trade) =>
      s.(whitelist := s.whitelist[hash := trade],
         log := s.log + [Whitelisted(hash, trade, hash in s.whitelist)])
    case Intercepted(htlc) =>
      s.(whitelist := if Accepts(s.whitelist, htlc) then s.whitelist - {htlc.hash} else s.whitelist,
         log := s.log + [if Accepts(s.whitelist, htlc)
                         then Forwarded(s.whitelist[htlc.hash], htlc, Decision(s.whitelist, htlc))
                         else Rejected(htlc)],
         calls := s.calls + (if htlc.isSwap then [] else [Fail(htlc.id)]) + [Decision(s.whitelist, htlc)])
  }

  const START := TakerState(map[], [], [])

  function Run(s: TakerState, evs: seq<Event>): TakerState
    decreases |evs|
  {
    if evs == [] then s else Run(Next(s, evs[0]), evs[1..])
  }

  class Taker {
    var whitelistedTrades: map<PaymentHash, Trade>
    var calls: seq<Call>
    ghost var log: seq<Entry>

    ghost function State(): TakerState
      reads this
    {
      TakerState(whitelistedTrades, log, calls)
    }

    constructor ()
      ensures State() == START
    {
      whitelistedTrades, calls, log := map[], [], [];
    }

    method Insert(hash: PaymentHash, trade: Trade)
      modifies this
      ensures State() == Next(old(State()), Whitelist(hash, trade))
    {
      log := log + [Whitelisted(hash, trade, hash in whitelistedTrades)];
      whitelistedTrades := whitelistedTrades[hash := trade];
    }

    /** The event handler. Lookup, check and removal happen under one lock. */
    method HtlcIntercepted(htlc: Htlc)
      modifies this
      ensures State() == Next(old(State()), Intercepted(htlc))
    {
      if !htlc.isSwap {
        calls := calls + [Fail(htlc.id)];
      }
      if htlc.hash !in whitelistedTrades {
        Reject(htlc);
        return;
      }
      var trade := whitelistedTrades[htlc.hash];
      match trade.swapType {
        case BuyAsset(rgb, msats) =>
          var net := SaturatingSub(htlc.outMsat, SaturatingSub(htlc.inMsat, HTLC_MIN_MSAT));
          if htlc.inRgb != Some(rgb) || htlc.inContract != Some(trade.contract) || net != msats
             || htlc.outContract.Some? {
            Reject(htlc);
            return;
          }
        case SellAsset(rgb, msats) =>
          var net := SaturatingSub(htlc.inMsat, htlc.outMsat);
          if htlc.outRgb != Some(rgb) || htlc.outContract != Some(trade.contract) || net != msats
             || htlc.inContract.Some? {
            Reject(htlc);
            return;
          }
      }
      whitelistedTrades := whitelistedTrades - {htlc.hash};
      var sent := Forward(htlc.id, htlc.nextScid, htlc.outMsat, htlc.outRgb);
      calls := calls + [sent];
      log := log + [Forwarded(trade, htlc, sent)];
    }

    method Reject(htlc: Htlc)
      modifies this`calls, this`log
      ensures calls == old(calls) + [Fail(htlc.id)]
      ensures log == old(log) + [Rejected(htlc)]
    {
      calls := calls + [Fail(htlc.id)];
      log := log + [Rejected(htlc)];
    }
  }

  /** A sale whitelisted at zero msats (which only a wrapping product gives) lets
      the taker hand over the asset and pay for it as well: any HTLC that passes
      on more than arrives is accepted. */
  lemma ZeroPriceSaleCanCost(trade: Trade, htlc: Htlc)
    requires trade.swapType.SellAsset? && trade.swapType.amountMsats == 0 && htlc.inMsat <= htlc.outMsat
    requires htlc.inContract == None && htlc.outContract == Some(trade.contract)
    requires htlc.outRgb == Some(trade.swapType.amountRgb)
    ensures Accepts(map[htlc.hash := trade], htlc)
    ensures AgreedMsat(trade) - MsatChange(htlc, Decision(map[htlc.hash := trade], htlc)) == htlc.outMsat - htlc.inMsat
  {}

  /** What an HTLC and the call that forwards it change for the taker. Amounts
      named for a channel of another kind move nothing. */
  function RgbChange(htlc: Htlc, sent: Forwarding, c: ContractId): int {
    (if htlc.inContract == Some(c) && htlc.inRgb.Some? then htlc.inRgb.value else 0)
    - (if htlc.outContract == Some(c) && sent.rgb.Some? then sent.rgb.value else 0)
  }

  function MsatChange(htlc: Htlc, sent: Forwarding): int {
    htlc.inMsat - sent.msat
  }

  /** The call gives the next hop what the sender meant for it. */
  predicate PassesOn(htlc: Htlc, sent: Forwarding) {
    sent.id == htlc.id && sent.scid == htlc.nextScid && sent.msat == htlc.outMsat && sent.rgb == htlc.outRgb
  }

  /** What the taker agreed to. */
  function AgreedRgb(trade: Trade, c: ContractId): int {
    if trade.contract != c then 0
    else if trade.swapType.BuyAsset? then trade.swapType.amountRgb else 0 - trade.swapType.amountRgb
  }

  function AgreedMsat(trade: Trade): int {
    if trade.swapType.BuyAsset? then 0 - trade.swapType.amountMsats else trade.swapType.amountMsats
  }

  /** The sum of a quantity over the log. */
  function Sum(log: seq<Entry>, f: Entry -> int): int {
    if log == [] then 0 else Sum(log[..|log| - 1], f) + f(log[|log| - 1])
  }

  function RgbMoved(c: ContractId): Entry -> int {
    (e: Entry) => if e.Forwarded? then RgbChange(e.htlc, e.sent, c) else 0
  }

  function RgbAgreed(c: ContractId): Entry -> int {
    (e: Entry) => if e.Forwarded? then AgreedRgb(e.trade, c) else 0
  }

  function MsatMoved(): Entry -> int {
    (e: Entry) => if e.Forwarded? then MsatChange(e.htlc, e.sent) else 0
  }

  function MsatAgreed(): Entry -> int {
    (e: Entry) => if e.Forwarded? then AgreedMsat(e.trade) else 0
  }

  function Buys(): Entry -> int {
    (e: Entry) => if e.Forwarded? && e.trade.swapType.BuyAsset? then 1 else 0
  }

  function InsertionsOf(h: PaymentHash): Entry -> int {
    (e: Entry) => if e.Whitelisted? && e.hash == h then 1 else 0
  }

  function ReplacementsOf(h: PaymentHash): Entry -> int {
    (e: Entry) => if e.Whitelisted? && e.hash == h && e.replaced then 1 else 0
  }

  function ForwardsOf(h: PaymentHash): Entry -> int {
    (e: Entry) => if e.Forwarded? && e.htlc.hash == h then 1 else 0
  }

  /** Forwarding moves exactly the trade's assets, and exactly its msats if there
      are any; a purchase at zero still never costs the taker. */
  lemma ForwardMovesTheTrade(trade: Trade, htlc: Htlc, sent: Forwarding, c: ContractId)
    requires Settles(trade, htlc) && PassesOn(htlc, sent)
    ensures RgbChange(htlc, sent, c) == AgreedRgb(trade, c)
    ensures trade.swapType.amountMsats > 0 ==>
              MsatChange(htlc, sent) == AgreedMsat(trade)
                + (if trade.swapType.BuyAsset? then Min(htlc.inMsat, HTLC_MIN_MSAT) else 0)
    ensures Protected(trade) ==> AgreedMsat(trade) <= MsatChange(htlc, sent)
    ensures Capped(trade) ==> MsatChange(htlc, sent) <= AgreedMsat(trade) + HTLC_MIN_MSAT * BuyCount(trade)
  {}

  /** Exactly the HTLCs that are forwarded: they use channels that carry the
      asset on the inspected side only, name an amount there, move exactly the
      trade's assets, and leave the taker the agreed msats with the minimum that
      travels with a purchase; at zero msats, on the taker's side for a purchase
      and on the other for a sale. */
  lemma AcceptedExactly(whitelist: Whitelisting, htlc: Htlc)
    ensures Decision(whitelist, htlc).Forward? <==>
            htlc.hash in whitelist &&
            var trade, sent := whitelist[htlc.hash], Forward(htlc.id, htlc.nextScid, htlc.outMsat, htlc.outRgb);
            var buys, bonus := trade.swapType.BuyAsset?, Min(htlc.inMsat, HTLC_MIN_MSAT);
            && htlc.inContract == (if buys then Some(trade.contract) else None)
            && htlc.outContract == (if buys then None else Some(trade.contract))
            && (if buys then htlc.inRgb.Some? else htlc.outRgb.Some?)
            && (forall d :: RgbChange(htlc, sent, d) == AgreedRgb(trade, d))
            && (if trade.swapType.amountMsats > 0
                then MsatChange(htlc, sent) == AgreedMsat(trade) + (if buys then bonus else 0)
                else if buys then MsatChange(htlc, sent) >= bonus else MsatChange(htlc, sent) <= 0)
    ensures Decision(whitelist, htlc).Forward? ==> PassesOn(htlc, Decision(whitelist, htlc))
    ensures Decision(whitelist, htlc).id == htlc.id
  {
    if htlc.hash in whitelist {
      var trade, sent := whitelist[htlc.hash], Forward(htlc.id, htlc.nextScid, htlc.outMsat, htlc.outRgb);
      if forall d :: RgbChange(htlc, sent, d) == AgreedRgb(trade, d) {
        assert RgbChange(htlc, sent, trade.contract) == AgreedRgb(trade, trade.contract);
      }
    }
  }

  /** The taker cannot end up paying more, or earning less, than agreed. */
  predicate Protected(trade: Trade) {
    trade.swapType.BuyAsset? || trade.swapType.amountMsats > 0
  }

  /** The taker cannot gain more than the HTLC minimum over what was agreed. */
  predicate Capped(trade: Trade) {
    trade.swapType.SellAsset? || trade.swapType.amountMsats > 0
  }

  function BuyCount(trade: Trade): int {
    if trade.swapType.BuyAsset? then 1 else 0
  }

  /** Only a sale at zero msats can cost the taker: there the saturated
      difference hides whatever it pays. */
  lemma ProtectedExactly(trade: Trade, hash: PaymentHash)
    ensures Protected(trade) <==>
            forall htlc: Htlc :: Accepts(map[hash := trade], htlc) ==>
              AgreedMsat(trade) <= MsatChange(htlc, Decision(map[hash := trade], htlc))
  {
    if !Protected(trade) {
      var htlc := Htlc(true, hash, 0, 0, 0, U64_MAX, None, Some(trade.swapType.amountRgb), None, Some(trade.contract));
      assert Accepts(map[hash := trade], htlc);
    }
  }

  /** Only a purchase at zero msats can profit the taker beyond the minimum. */
  lemma CappedExactly(trade: Trade, hash: PaymentHash)
    ensures Capped(trade) <==>
            forall htlc: Htlc :: Accepts(map[hash := trade], htlc) ==>
              MsatChange(htlc, Decision(map[hash := trade], htlc)) <=
              AgreedMsat(trade) + HTLC_MIN_MSAT * BuyCount(trade)
  {
    if !Capped(trade) {
      var htlc := Htlc(true, hash, 0, 0, U64_MAX, 0, Some(trade.swapType.amountRgb), None, Some(trade.contract), None);
      assert Accepts(map[hash := trade], htlc);
    }
  }

  /** Together: the msats of a trade are binding exactly when there are any. */
  lemma PricedTradesBind(trade: Trade, hash: PaymentHash)
    ensures trade.swapType.amountMsats > 0 <==>
            forall htlc: Htlc :: Accepts(map[hash := trade], htlc) ==>
              var change := MsatChange(htlc, Decision(map[hash := trade], htlc));
              AgreedMsat(trade) <= change <= AgreedMsat(trade) + HTLC_MIN_MSAT * BuyCount(trade)
  {
    ProtectedExactly(trade, hash);
    CappedExactly(trade, hash);
  }

  // ---- Accounting over runs

  /** Every forward settled its trade and was passed on as asked, and its trade
      has a property. */
  ghost predicate Settled(log: seq<Entry>, p: Trade -> bool) {
    forall e :: e in log && e.Forwarded? ==> p(e.trade) && Settles(e.trade, e.htlc) && PassesOn(e.htlc, e.sent)
  }

  ghost predicate Kept(s: TakerState, p: Trade -> bool) {
    Settled(s.log, p) && forall h :: h in s.whitelist ==> p(s.whitelist[h])
  }

  ghost predicate AllWhitelisted(evs: seq<Event>, p: Trade -> bool) {
    forall ev :: ev in evs && ev.Whitelist? ==> p(ev.trade)
  }

  lemma StepKeeps(s: TakerState, ev: Event, p: Trade -> bool)
    requires Kept(s, p) && (ev.Whitelist? ==> p(ev.trade))
    ensures Kept(Next(s, ev), p)
  {
    hide Settles;
  }

  lemma {:induction false} RunKeeps(s: TakerState, evs: seq<Event>, p: Trade -> bool)
    requires Kept(s, p) && AllWhitelisted(evs, p)
    ensures Kept(Run(s, evs), p)
    decreases |evs|
  {
    hide Kept, Next;
    if evs != [] {
      StepKeeps(s, evs[0], p);
      RunKeeps(Next(s, evs[0]), evs[1..], p);
    }
  }

  /** Sums compare as their terms do, up to a multiple of a third sum. */
  lemma {:induction false} SumsCompare(log: seq<Entry>, f: Entry -> int, g: Entry -> int, n: int, slack: Entry -> int)
    requires forall e :: e in log ==> f(e) <= g(e) + n * slack(e)
    ensures Sum(log, f) <= Sum(log, g) + n * Sum(log, slack)
  {
    if log != [] {
      var init, last := log[..|log| - 1], log[|log| - 1];
      assert last in log && f(last) <= g(last) + n * slack(last);
      SumsCompare(init, f, g, n, slack);
      assert n * (Sum(init, slack) + slack(last)) == n * Sum(init, slack) + n * slack(last);
    }
  }

  /** Any log of settled forwards moves exactly the assets of its trades. */
  lemma AssetsBalance(log: seq<Entry>, p: Trade -> bool, c: ContractId)
    requires Settled(log, p)
    ensures Sum(log, RgbMoved(c)) == Sum(log, RgbAgreed(c))
  {
    hide Settles, RgbChange, AgreedRgb;
    forall e | e in log ensures RgbMoved(c)(e) == RgbAgreed(c)(e) {
      if e.Forwarded? {
        ForwardMovesTheTrade(e.trade, e.htlc, e.sent, c);
      }
    }
    SumsCompare(log, RgbMoved(c), RgbAgreed(c), 0, Buys());
    SumsCompare(log, RgbAgreed(c), RgbMoved(c), 0, Buys());
  }

  lemma NoLoss(log: seq<Entry>, p: Trade -> bool)
    requires Settled(log, p) && forall trade :: p(trade) ==> Protected(trade)
    ensures Sum(log, MsatAgreed()) <= Sum(log, MsatMoved())
  {
    hide Settles, MsatChange, AgreedMsat, Protected;
    forall e | e in log ensures MsatAgreed()(e) <= MsatMoved()(e) {
      if e.Forwarded? {
        ForwardMovesTheTrade(e.trade, e.htlc, e.sent, 0);
      }
    }
    SumsCompare(log, MsatAgreed(), MsatMoved(), 0, Buys());
  }

  lemma NoExcess(log: seq<Entry>, p: Trade -> bool)
    requires Settled(log, p) && forall trade :: p(trade) ==> Capped(trade)
    ensures Sum(log, MsatMoved()) <= Sum(log, MsatAgreed()) + HTLC_MIN_MSAT * Sum(log, Buys())
  {
    hide Settles, MsatChange, AgreedMsat, Capped;
    forall e | e in log ensures MsatMoved()(e) <= MsatAgreed()(e) + HTLC_MIN_MSAT * Buys()(e) {
      if e.Forwarded? {
        ForwardMovesTheTrade(e.trade, e.htlc, e.sent, 0);
      }
    }
    SumsCompare(log, MsatMoved(), MsatAgreed(), HTLC_MIN_MSAT, Buys());
  }

  /** Whole-run accounting, for any interleaving of whitelistings and HTLCs: the
      assets moved are exactly those of the trades used up. The msats are no
      less than theirs when no sale is at zero, and at most the HTLC minimum per
      purchase more when no purchase is. */
  lemma RunSettlesExactly(evs: seq<Event>)
    ensures var log := Run(START, evs).log;
            && (forall c :: Sum(log, RgbMoved(c)) == Sum(log, RgbAgreed(c)))
            && (AllWhitelisted(evs, Protected) ==> Sum(log, MsatAgreed()) <= Sum(log, MsatMoved()))
            && (AllWhitelisted(evs, Capped) ==>
                  Sum(log, MsatMoved()) <= Sum(log, MsatAgreed()) + HTLC_MIN_MSAT * Sum(log, Buys()))
  {
    hide Settled, Run;
    var s := Run(START, evs);
    forall c ensures Sum(s.log, RgbMoved(c)) == Sum(s.log, RgbAgreed(c)) {
      StartKeeps(evs, trade => true);
      AssetsBalance(s.log, trade => true, c);
    }
    if AllWhitelisted(evs, Protected) {
      StartKeeps(evs, Protected);
      NoLoss(s.log, Protected);
    }
    if AllWhitelisted(evs, Capped) {
      StartKeeps(evs, Capped);
      NoExcess(s.log, Capped);
    }
  }

  lemma StartKeeps(evs: seq<Event>, p: Trade -> bool)
    requires AllWhitelisted(evs, p)
    ensures Kept(Run(START, evs), p)
  {
    RunKeeps(START, evs, p);
  }

  /** Every insertion of a hash is used once, replaced, or still waiting. */
  ghost predicate Accounted(s: TakerState, h: PaymentHash) {
    Sum(s.log, InsertionsOf(h)) ==
    Sum(s.log, ForwardsOf(h)) + Sum(s.log, ReplacementsOf(h)) + (if h in s.whitelist then 1 else 0)
  }

  lemma {:induction false} RunKeepsAccounted(s: TakerState, evs: seq<Event>, h: PaymentHash)
    requires Accounted(s, h)
    ensures Accounted(Run(s, evs), h)
    decreases |evs|
  {
    if evs != [] {
      var t := Next(s, evs[0]);
      assert t.log[..|t.log| - 1] == s.log;
      RunKeepsAccounted(t, evs[1..], h);
    }
  }

  /** Forwards of a payment hash never outnumber its whitelistings. */
  lemma ForwardsAreWhitelisted(evs: seq<Event>, h: PaymentHash)
    ensures var s := Run(START, evs);
            Accounted(s, h) && Sum(s.log, ReplacementsOf(h)) >= 0
    ensures Sum(Run(START, evs).log, ForwardsOf(h)) <= Sum(Run(START, evs).log, InsertionsOf(h))
  {
    RunKeepsAccounted(START, evs, h);
    CountsAreNatural(Run(START, evs).log, h);
  }

  lemma {:induction false} CountsAreNatural(log: seq<Entry>, h: PaymentHash)
    ensures Sum(log, ReplacementsOf(h)) >= 0
  {
    if log != [] {
      CountsAreNatural(log[..|log| - 1], h);
    }
  }

  // ---- Decisions and calls over runs

  /** The trade waiting under a hash, read off the log: the last one whitelisted
      that no forward has used since. */
  function Waiting(log: seq<Entry>, h: PaymentHash): Option<Trade> {
    if log == [] then None
    else
      var last := log[|log| - 1];
      if last.Whitelisted? && last.hash == h then Some(last.trade)
      else if last.Forwarded? && last.htlc.hash == h then None
      else Waiting(log[..|log| - 1], h)
  }

  ghost predicate Tracks(s: TakerState) {
    forall h :: Waiting(s.log, h) == if h in s.whitelist then Some(s.whitelist[h]) else None
  }

  lemma StepTracks(s: TakerState, ev: Event)
    requires Tracks(s)
    ensures Tracks(Next(s, ev))
  {
    hide Accepts;
    var t := Next(s, ev);
    assert t.log[..|t.log| - 1] == s.log;
  }

  lemma {:induction false} RunAppends(s: TakerState, evs: seq<Event>)
    ensures |Run(s, evs).log| == |s.log| + |evs| && Run(s, evs).log[..|s.log|] == s.log
    decreases |evs|
  {
    hide Accepts;
    if evs != [] {
      RunAppends(Next(s, evs[0]), evs[1..]);
    }
  }

  /** Over any run, each event leaves one entry, and an HTLC is forwarded exactly
      when the trade then waiting under its hash is settled by it; the trade is
      used up, and the call passes on what was asked. */
  lemma {:induction false} DecidedExactly(s: TakerState, evs: seq<Event>, k: nat)
    requires Tracks(s) && k < |evs|
    ensures |Run(s, evs).log| == |s.log| + |evs|
    ensures var log := Run(s, evs).log;
            var at := |s.log| + k;
            match evs[k]
            case Whitelist(hash, trade) =>
              log[at].Whitelisted? && log[at].hash == hash && log[at].trade == trade
              && (log[at].replaced <==> Waiting(log[..at], hash).Some?)
            case Intercepted(htlc) =>
              var waiting := Waiting(log[..at], htlc.hash);
              if waiting.Some? && Settles(waiting.value, htlc)
              then log[at].Forwarded? && log[at].trade == waiting.value && log[at].htlc == htlc
                   && PassesOn(htlc, log[at].sent)
              else log[at] == Rejected(htlc)
    decreases |evs|
  {
    hide Settles;
    var t := Next(s, evs[0]);
    RunAppends(s, evs);
    if k == 0 {
      RunAppends(t, evs[1..]);
      assert Run(s, evs).log[|s.log|] == Run(s, evs).log[..|t.log|][|s.log|] == t.log[|s.log|];
    } else {
      StepTracks(s, evs[0]);
      DecidedExactly(t, evs[1..], k - 1);
    }
  }

  /** The number of times a call was made. */
  function Times(calls: seq<Call>, call: Call): int {
    if calls == [] then 0
    else Times(calls[..|calls| - 1], call) + (if calls[|calls| - 1] == call then 1 else 0)
  }

  function Sends(call: Forwarding): Entry -> int {
    (e: Entry) => if e.Forwarded? && e.sent == call then 1 else 0
  }

  /** A rejection fails its HTLC, and an unflagged HTLC is failed at once. */
  function Fails(id: nat): Entry -> int {
    (e: Entry) => if e.Whitelisted? || e.htlc.id != id then 0
                  else (if e.Rejected? then 1 else 0) + (if e.htlc.isSwap then 0 else 1)
  }

  lemma OneMoreTime(calls: seq<Call>, one: Call, call: Call)
    ensures Times(calls + [one], call) == Times(calls, call) + (if one == call then 1 else 0)
  {
    assert (calls + [one])[..|calls|] == calls;
  }

  ghost predicate Answered(s: TakerState) {
    && (forall call: Forwarding :: Times(s.calls, call) == Sum(s.log, Sends(call)))
    && (forall id: nat :: Times(s.calls, Fail(id)) == Sum(s.log, Fails(id)))
  }

  lemma StepAnswers(s: TakerState, ev: Event)
    requires Answered(s)
    ensures Answered(Next(s, ev))
  {
    hide Accepts, Sum, Times;
    var t := Next(s, ev);
    forall call: Call
      ensures Times(t.calls, call) == Times(s.calls, call) + (if ev.Whitelist? then 0 else
                (if !ev.htlc.isSwap && call == Fail(ev.htlc.id) then 1 else 0)
                + (if call == Decision(s.whitelist, ev.htlc) then 1 else 0))
    {
      if ev.Intercepted? {
        var first := if ev.htlc.isSwap then s.calls else s.calls + [Fail(ev.htlc.id)];
        assert t.calls == first + [Decision(s.whitelist, ev.htlc)];
        OneMoreTime(s.calls, Fail(ev.htlc.id), call);
        OneMoreTime(first, Decision(s.whitelist, ev.htlc), call);
      }
    }
    forall call: Forwarding ensures Times(t.calls, call) == Sum(t.log, Sends(call)) {
      SumOfMore(s.log, t.log[|s.log|], Sends(call));
    }
    forall id: nat ensures Times(t.calls, Fail(id)) == Sum(t.log, Fails(id)) {
      SumOfMore(s.log, t.log[|s.log|], Fails(id));
    }
  }

  lemma SumOfMore(log: seq<Entry>, e: Entry, f: Entry -> int)
    ensures Sum(log + [e], f) == Sum(log, f) + f(e)
  {
    assert (log + [e])[..|log|] == log;
  }

  lemma {:induction false} RunAnswers(s: TakerState, evs: seq<Event>)
    requires Answered(s)
    ensures Answered(Run(s, evs))
    decreases |evs|
  {
    hide Answered, Next;
    if evs != [] {
      StepAnswers(s, evs[0]);
      RunAnswers(Next(s, evs[0]), evs[1..]);
    }
  }

  /** Over any run, every forward entry stands for exactly one forwarding call
      with its amounts, every rejection for one failing call, and no other call
      is made but the failing of unflagged HTLCs. */
  lemma CallsAreExactly(evs: seq<Event>, call: Call)
    ensures var s := Run(START, evs);
            Times(s.calls, call) == if call.Forward? then Sum(s.log, Sends(call)) else Sum(s.log, Fails(call.id))
  {
    hide Run;
    RunAnswers(START, evs);
  }

  function Resolutions(calls: seq<Call>, id: nat): nat {
    if calls == [] then 0
    else Resolutions(calls[..|calls| - 1], id) + (if calls[|calls| - 1].id == id then 1 else 0)
  }

  function Due(evs: seq<Event>, id: nat): nat {
    if evs == [] then 0
    else (if evs[0].Intercepted? && evs[0].htlc.id == id then (if evs[0].htlc.isSwap then 1 else 2) else 0)
         + Due(evs[1..], id)
  }

  lemma OneMoreCall(calls: seq<Call>, call: Call, id: nat)
    ensures Resolutions(calls + [call], id) == Resolutions(calls, id) + (if call.id == id then 1 else 0)
  {}

  lemma StepResolves(s: TakerState, ev: Event, id: nat)
    ensures Resolutions(Next(s, ev).calls, id) == Resolutions(s.calls, id) + Due([ev], id)
  {
    assert [ev][1..] == [];
    if ev.Intercepted? {
      var last := Decision(s.whitelist, ev.htlc);
      if ev.htlc.isSwap {
        assert Next(s, ev).calls == s.calls + [last];
        OneMoreCall(s.calls, last, id);
      } else {
        OneMoreCall(s.calls, Fail(ev.htlc.id), id);
        OneMoreCall(s.calls + [Fail(ev.htlc.id)], last, id);
      }
    }
  }

  lemma {:induction false} RunResolves(s: TakerState, evs: seq<Event>, id: nat)
    ensures Resolutions(Run(s, evs).calls, id) == Resolutions(s.calls, id) + Due(evs, id)
    decreases |evs|
  {
    if evs != [] {
      StepResolves(s, evs[0], id);
      RunResolves(Next(s, evs[0]), evs[1..], id);
    }
  }

  lemma {:induction false} DueOnce(evs: seq<Event>, k: nat)
    requires k < |evs| && evs[k].Intercepted?
    requires forall i :: 0 <= i < |evs| && i != k && evs[i].Intercepted? ==> evs[i].htlc.id != evs[k].htlc.id
    ensures Due(evs, evs[k].htlc.id) == if evs[k].htlc.isSwap then 1 else 2
  {
    if k > 0 {
      DueOnce(evs[1..], k - 1);
    } else {
      NotDue(evs[1..], evs[k].htlc.id);
    }
  }

  lemma {:induction false} NotDue(evs: seq<Event>, id: nat)
    requires forall i :: 0 <= i < |evs| && evs[i].Intercepted? ==> evs[i].htlc.id != id
    ensures Due(evs, id) == 0
  {
    if evs != [] {
      NotDue(evs[1..], id);
    }
  }

  /** An HTLC is failed or forwarded exactly once over the whole run if and only
      if it was flagged as a swap: an unflagged one is failed and then decided
      again. */
  lemma ResolvedExactlyOnce(evs: seq<Event>, k: nat)
    requires k < |evs| && evs[k].Intercepted?
    requires forall i :: 0 <= i < |evs| && i != k && evs[i].Intercepted? ==> evs[i].htlc.id != evs[k].htlc.id
    ensures Resolutions(Run(START, evs).calls, evs[k].htlc.id) == 1 <==> evs[k].htlc.isSwap
  {
    RunResolves(START, evs, evs[k].htlc.id);
    DueOnce(evs, k);
  }
}
