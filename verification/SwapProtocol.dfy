/** A maker and a taker running swaps: offers are printed and recorded, read and
    whitelisted, executed, intercepted and settled, in any order. */
module SwapProtocol {
  import opened Prelude
  import opened SwapString
  import Bookkeeping
  import Intercept
  import MakerRoute

  /** A forwarded trade with the text its whitelisting was read from. */
  datatype Settlement = Settlement(text: Text, trade: Trade, htlc: Intercept.Htlc)

  /** An execution by the maker: the offer's text and the two legs it found. */
  datatype Execution = Execution(text: Text, first: seq<MakerRoute.Hop>, second: seq<MakerRoute.Hop>)

  /** `offers` and `read` remember the maker's printed texts and the text each
      whitelisting came from; `run` is the history of the maker's tables. */
  datatype System = System(
    run: seq<Bookkeeping.Event>,
    taker: Intercept.TakerState,
    offers: map<PaymentHash, Text>,
    read: map<PaymentHash, Text>,
    settled: seq<Settlement>,
    executed: seq<Execution>)

  /** How one pair of nodes prints and reads offers and marks swap hops; both run
      the same build. */
  datatype Codec = Codec(build: Build, id: IdText, read: Text -> Parsed, flag: MakerRoute.Scid)

  ghost predicate Faithful(c: Codec) {
    Lawful(c.id) && forall text :: c.read(text) == FromStr(c.build, c.id, text)
  }

  function Maker(s: System): Bookkeeping.Books {
    Bookkeeping.Run(s.run)
  }

  const START := System([], Intercept.START, map[], map[], [], [])

  /** `legs` are what the maker finds, if it knows the preimage and finds both. */
  datatype Event =
    | MakerInit(amount: u64, asset: ContractId, side: Text, price: u64, timeout: u64, now: u64,
                hash: PaymentHash, balance: u64)
    | TakerReads(text: Text, clock: u64, holding: u64)
    | MakerExecutes(offer: Text, time: u64, legs: Option<(seq<MakerRoute.Hop>, seq<MakerRoute.Hop>)>, accepted: bool)
    | Intercepted(htlc: Intercept.Htlc)
    | Payment(ev: Bookkeeping.Event)

  /** The trade `makerinit` agrees to offer, if it gets past its checks. A maker
      selling the asset must hold it. */
  function OfferedTrade(build: Build, ev: Event): Option<Trade>
    requires ev.MakerInit?
  {
    if ev.timeout == 0 || ev.price == 0 || ev.amount == 0 then None
    else
      match Product(build, ev.amount, ev.price)
      case None => None
      case Some(msats) =>
        if ev.side == BUY then
          if ev.amount <= ev.balance then Some(Trade(ev.asset, BuyAsset(ev.amount, msats))) else None
        else if ev.side == SELL then Some(Trade(ev.asset, SellAsset(ev.amount, msats)))
        else None
  }

  /** The swap `taker` whitelists, if the text is readable, unexpired and
      covered. */
  function Taken(c: Codec, text: Text, clock: u64, holding: u64): Option<Swap> {
    match c.read(text)
    case Err(_) => None
    case Ok(swap) =>
      if clock > swap.expiry then None
      else if swap.trade.swapType.SellAsset? && swap.trade.swapType.amountRgb > holding then None
      else Some(swap)
  }

  function Next(c: Codec, s: System, ev: Event): System
    requires Enabled(s, ev)
  {
    match ev
    case MakerInit(amount, asset, side, price, timeout, now, hash, _) => (
      match OfferedTrade(c.build, ev)
      case None => s
      case Some(trade) =>
        s.(run := s.run + [Bookkeeping.Offered(hash, trade)],
           offers := s.offers[hash := Offer(c.id, amount, asset, trade.swapType.Side(), price, now + timeout, hash)]))
    case TakerReads(text, clock, holding) => (
      match Taken(c, text, clock, holding)
      case None => s
      case Some(swap) =>
        s.(taker := Intercept.Next(s.taker, Intercept.Whitelist(swap.paymentHash, swap.trade)),
           read := s.read[swap.paymentHash := text]))
    case MakerExecutes(offer, time, legs, accepted) => (
      match c.read(offer)
      case Err(_) => s
      case Ok(swap) =>
        if time > swap.expiry || legs == None then s
        else
          var msats := Some(swap.trade.swapType.amountMsats);
          s.(run := s.run + [Bookkeeping.Started(swap.paymentHash, None, msats, accepted)],
             executed := s.executed + [Execution(offer, legs.value.0, legs.value.1)]))
    case Intercepted(htlc) =>
      s.(taker := Intercept.Next(s.taker, Intercept.Intercepted(htlc)),
         settled := if Intercept.Accepts(s.taker.whitelist, htlc) && htlc.hash in s.read
                    then s.settled + [Settlement(s.read[htlc.hash], s.taker.whitelist[htlc.hash], htlc)]
                    else s.settled)
    case Payment(e) => s.(run := s.run + [e])
  }

  /** The world's side of a step: new hashes are fresh, the clock fits u64, routes
      found carry no asset yet, and offers are only made through `makerinit`. */
  predicate Enabled(s: System, ev: Event) {
    && (ev.MakerInit? ==> ev.now + ev.timeout <= U64_MAX && NewHash(s, ev.hash))
    && (ev.MakerExecutes? && ev.legs.Some? ==> MakerRoute.Plain(ev.legs.value.0, ev.legs.value.1))
    && (ev.Payment? ==> !ev.ev.Offered? && (ev.ev.Invoiced? ==> NewHash(s, ev.ev.hash)))
  }

  predicate NewHash(s: System, h: PaymentHash) {
    h !in Bookkeeping.Issued(s.run) + Bookkeeping.Billed(s.run) + Bookkeeping.Paid(s.run)
  }

  /** The trade an offer text stands for. */
  function Meaning(c: Codec, text: Text): Option<(PaymentHash, Trade)> {
    match c.read(text)
    case Ok(swap) => Some((swap.paymentHash, swap.trade))
    case Err(_) => None
  }

  /** The trades and HTLCs the taker's log says were forwarded, in order. */
  function Forwards(log: seq<Intercept.Entry>): seq<(Trade, Intercept.Htlc)> {
    if log == [] then []
    else
      var last := log[|log| - 1];
      Forwards(log[..|log| - 1]) + (if last.Forwarded? then [(last.trade, last.htlc)] else [])
  }

  function Deals(settled: seq<Settlement>): seq<(Trade, Intercept.Htlc)> {
    seq(|settled|, i requires 0 <= i < |settled| => (settled[i].trade, settled[i].htlc))
  }

  /** What every step keeps. */
  ghost predicate Inv(c: Codec, s: System) {
    && Bookkeeping.Fresh(s.run)
    && Deals(s.settled) == Forwards(s.taker.log)
    && (forall e :: e in s.taker.log && e.Forwarded? ==> Intercept.PassesOn(e.htlc, e.sent))
    && s.offers.Keys == Bookkeeping.Issued(s.run)
    && (forall h :: h in s.offers ==> Meaning(c, s.offers[h]).Some? && Meaning(c, s.offers[h]).value.0 == h)
    && (forall h :: h in Maker(s).trades ==>
          h in s.offers && Meaning(c, s.offers[h]) == Some((h, Maker(s).trades[h])))
    && (forall h :: h in s.taker.whitelist ==>
          h in s.read && Meaning(c, s.read[h]) == Some((h, s.taker.whitelist[h])))
    && (forall e :: e in s.executed ==>
          Meaning(c, e.text).Some? && Meaning(c, e.text).value.0 in Maker(s).outbound
          && MakerRoute.Plain(e.first, e.second))
    && (forall i :: 0 <= i < |s.settled| ==>
          Meaning(c, s.settled[i].text) == Some((s.settled[i].htlc.hash, s.settled[i].trade))
          && Intercept.Settles(s.settled[i].trade, s.settled[i].htlc))
  }

  /** The text an enabled `makerinit` prints means the trade it records. */
  ghost predicate MeansItsTrade(c: Codec, s: System, ev: Event)
    requires ev.MakerInit? && Enabled(s, ev)
  {
    var trade := OfferedTrade(c.build, ev);
    trade.Some? ==>
      Meaning(c, Offer(c.id, ev.amount, ev.asset, trade.value.swapType.Side(), ev.price, ev.now + ev.timeout, ev.hash))
      == Some((ev.hash, trade.value))
  }

  lemma InitMeansItsTrade(c: Codec, s: System, ev: Event)
    requires Faithful(c) && ev.MakerInit? && Enabled(s, ev) && OfferedTrade(c.build, ev).Some?
    ensures MeansItsTrade(c, s, ev)
  {
    OfferThenFromStr(c.build, c.id, ev.amount, ev.asset, OfferedTrade(c.build, ev).value.swapType.Side(), ev.price,
                     ev.now + ev.timeout, ev.hash);
  }

  lemma RunGrows(run: seq<Bookkeeping.Event>, ev: Bookkeeping.Event)
    ensures (run + [ev])[..|run| + 1 - 1] == run
    ensures Bookkeeping.Run(run + [ev]) == Bookkeeping.Next(Bookkeeping.Run(run), ev)
  {}

  lemma InitKeepsInv(c: Codec, s: System, ev: Event)
    requires Inv(c, s) && ev.MakerInit? && Enabled(s, ev) && MeansItsTrade(c, s, ev)
    ensures Inv(c, Next(c, s, ev))
  {
    if OfferedTrade(c.build, ev).Some? {
      var trade := OfferedTrade(c.build, ev).value;
      RunGrows(s.run, Bookkeeping.Offered(ev.hash, trade));
    }
  }

  lemma DealsGrow(settled: seq<Settlement>, done: Settlement)
    ensures Deals(settled + [done]) == Deals(settled) + [(done.trade, done.htlc)]
  {}

  lemma ForwardsGrow(log: seq<Intercept.Entry>, e: Intercept.Entry)
    ensures Forwards(log + [e]) == Forwards(log) + (if e.Forwarded? then [(e.trade, e.htlc)] else [])
  {
    assert (log + [e])[..|log|] == log;
  }

  lemma ReadKeepsInv(c: Codec, s: System, ev: Event)
    requires Inv(c, s) && Enabled(s, ev) && ev.TakerReads?
    ensures Inv(c, Next(c, s, ev))
  {
    hide Deals, Forwards, Intercept.Settles, Bookkeeping.Fresh, Bookkeeping.Issued, Bookkeeping.Run;
    var t := Next(c, s, ev);
    if t != s {
      ForwardsGrow(s.taker.log, t.taker.log[|s.taker.log|]);
    }
  }

  lemma InterceptKeepsInv(c: Codec, s: System, htlc: Intercept.Htlc)
    requires Inv(c, s)
    ensures Inv(c, Next(c, s, Intercepted(htlc)))
  {
    hide Deals, Forwards, Intercept.Settles, Bookkeeping.Fresh, Bookkeeping.Issued, Bookkeeping.Run;
    var t := Next(c, s, Intercepted(htlc));
    ForwardsGrow(s.taker.log, t.taker.log[|s.taker.log|]);
    if Intercept.Accepts(s.taker.whitelist, htlc) {
      DealsGrow(s.settled, t.settled[|s.settled|]);
    }
  }

  lemma PaymentKeepsInv(c: Codec, s: System, e: Bookkeeping.Event)
    requires Inv(c, s) && Enabled(s, Payment(e))
    ensures Inv(c, s.(run := s.run + [e]))
  {
    RunGrows(s.run, e);
  }

  lemma StepKeepsInv(c: Codec, s: System, ev: Event)
    requires Inv(c, s) && Enabled(s, ev) && (ev.MakerInit? ==> MeansItsTrade(c, s, ev))
    ensures Inv(c, Next(c, s, ev))
  {
    match ev
    case MakerInit(_, _, _, _, _, _, _, _) => InitKeepsInv(c, s, ev);
    case TakerReads(_, _, _) => ReadKeepsInv(c, s, ev);
    case Intercepted(htlc) => InterceptKeepsInv(c, s, htlc);
    case Payment(e) => PaymentKeepsInv(c, s, e);
    case MakerExecutes(_, _, _, _) => ExecuteKeepsInv(c, s, ev);
  }

  lemma ExecuteKeepsInv(c: Codec, s: System, ev: Event)
    requires Inv(c, s) && Enabled(s, ev) && ev.MakerExecutes?
    ensures Inv(c, Next(c, s, ev))
  {
    hide Inv, MakerRoute.Plain;
    var t := Next(c, s, ev);
    if t != s {
      var started := t.run[|s.run|];
      PaymentKeepsInv(c, s, started);
      RunGrows(s.run, started);
      NoteKeepsInv(c, s.(run := t.run), t.executed[|s.executed|]);
    }
  }

  lemma NoteKeepsInv(c: Codec, s: System, e: Execution)
    requires Inv(c, s) && Meaning(c, e.text).Some? && Meaning(c, e.text).value.0 in Maker(s).outbound
    requires MakerRoute.Plain(e.first, e.second)
    ensures Inv(c, s.(executed := s.executed + [e]))
  {
    hide Deals, Forwards, Intercept.Settles, Bookkeeping.Fresh, Bookkeeping.Issued, Bookkeeping.Run, MakerRoute.Plain,
         Meaning;
  }

  lemma AnyStepKeepsInv(c: Codec, s: System, ev: Event)
    requires Faithful(c) && Inv(c, s) && Enabled(s, ev)
    ensures Inv(c, Next(c, s, ev))
  {
    if ev.MakerInit? && OfferedTrade(c.build, ev).Some? {
      InitMeansItsTrade(c, s, ev);
    }
    StepKeepsInv(c, s, ev);
  }

  /** A run of enabled events leads from one state to another. */
  ghost predicate Leads(c: Codec, s: System, evs: seq<Event>, t: System)
    decreases |evs|
  {
    if evs == [] then s == t else Enabled(s, evs[0]) && Leads(c, Next(c, s, evs[0]), evs[1..], t)
  }

  ghost predicate Reachable(c: Codec, s: System) {
    exists evs :: Leads(c, START, evs, s)
  }

  lemma {:induction false} RunKeepsInv(c: Codec, s: System, evs: seq<Event>, t: System)
    requires Faithful(c) && Inv(c, s) && Leads(c, s, evs, t)
    ensures Inv(c, t)
    decreases |evs|
  {
    if evs != [] {
      AnyStepKeepsInv(c, s, evs[0]);
      RunKeepsInv(c, Next(c, s, evs[0]), evs[1..], t);
    }
  }

  lemma ReachableKeepsInv(c: Codec, s: System)
    requires Faithful(c) && Reachable(c, s)
    ensures Inv(c, s)
  {
    var evs :| Leads(c, START, evs, s);
    RunKeepsInv(c, START, evs, s);
  }

  /** The taker holds a trade it read from the maker's printed offer. */
  ghost predicate HoldsOffer(s: System, h: PaymentHash) {
    h in s.taker.whitelist && h in s.read && s.read[h] in s.offers.Values
  }

  /** Agreement, in every reachable state: a trade whitelisted from a text the
      maker printed is, until it is claimed, in the maker's table under the same
      hash, with the same contract, side and amounts. */
  lemma WhitelistedOffersAgree(c: Codec, s: System, h: PaymentHash)
    requires Faithful(c) && Reachable(c, s)
    requires HoldsOffer(s, h) && h !in Bookkeeping.Paid(s.run)
    ensures h in Maker(s).trades && Maker(s).trades[h] == s.taker.whitelist[h]
  {
    ReachableKeepsInv(c, s);
    Bookkeeping.TablesFollowTheRun(s.run);
    var other :| other in s.offers && s.offers[other] == s.read[h];
    assert Meaning(c, s.offers[other]) == Some((h, s.taker.whitelist[h]));
  }

  /** Every HTLC the taker ever forwarded is among the settlements, and one
      whose trade was read from a printed offer moved what that offer says,
      whatever else happened in the run. */
  lemma ForwardedOffersAreHonoured(c: Codec, s: System, done: Settlement)
    requires Faithful(c) && Reachable(c, s)
    requires done in s.settled && done.text in s.offers.Values
    ensures Deals(s.settled) == Forwards(s.taker.log)
    ensures var h := done.htlc.hash;
            h in s.offers && s.offers[h] == done.text
            && Meaning(c, s.offers[h]) == Some((h, done.trade)) && Intercept.Settles(done.trade, done.htlc)
  {
    ReachableKeepsInv(c, s);
    var other :| other in s.offers && s.offers[other] == done.text;
    assert Meaning(c, s.offers[other]) == Some((done.htlc.hash, done.trade));
  }

  lemma {:induction false} ForwardedIsListed(log: seq<Intercept.Entry>, e: Intercept.Entry)
    requires e in log && e.Forwarded?
    ensures (e.trade, e.htlc) in Forwards(log)
  {
    var init, last := log[..|log| - 1], log[|log| - 1];
    assert log == init + [last];
    if e != last {
      ForwardedIsListed(init, e);
    }
  }

  /** Whatever the taker forwarded was read from some text, so a development
      build never forwards a trade at zero msats. */
  lemma ForwardsComeFromTexts(c: Codec, s: System, e: Intercept.Entry)
    requires Faithful(c) && Inv(c, s) && e in s.taker.log && e.Forwarded?
    ensures Intercept.Settles(e.trade, e.htlc) && Intercept.PassesOn(e.htlc, e.sent)
    ensures exists done :: done in s.settled && done.trade == e.trade
    ensures c.build.Dev? ==> e.trade.swapType.amountMsats > 0
  {
    hide FromStr, Intercept.Settles, Forwards;
    ForwardedIsListed(s.taker.log, e);
    var i :| 0 <= i < |Deals(s.settled)| && Deals(s.settled)[i] == (e.trade, e.htlc);
    assert s.settled[i] in s.settled && Meaning(c, s.settled[i].text).Some?;
    ParsedAmounts(c.build, c.id, s.settled[i].text);
  }

  /** Whole-run accounting where trades come only from texts: in every reachable
      state the assets moved are exactly those of the trades used up. In a
      development build the msats are theirs, plus at most the HTLC minimum per
      purchase; in a release build each bound needs that no sale, or no purchase,
      was forwarded at zero. */
  lemma TakerAccounts(c: Codec, s: System)
    requires Faithful(c) && Reachable(c, s)
    ensures var log := s.taker.log;
            && (forall d :: Intercept.Sum(log, Intercept.RgbMoved(d)) == Intercept.Sum(log, Intercept.RgbAgreed(d)))
            && (c.build.Dev? || (forall done :: done in s.settled ==> Intercept.Protected(done.trade)) ==>
                  Intercept.Sum(log, Intercept.MsatAgreed()) <= Intercept.Sum(log, Intercept.MsatMoved()))
            && (c.build.Dev? || (forall done :: done in s.settled ==> Intercept.Capped(done.trade)) ==>
                  Intercept.Sum(log, Intercept.MsatMoved()) <=
                  Intercept.Sum(log, Intercept.MsatAgreed())
                  + Intercept.HTLC_MIN_MSAT * Intercept.Sum(log, Intercept.Buys()))
  {
    hide Faithful, Reachable, Inv, Intercept.Sum, Intercept.Settles;
    ReachableKeepsInv(c, s);
    var log := s.taker.log;
    forall e | e in log && e.Forwarded?
      ensures Intercept.Settles(e.trade, e.htlc) && Intercept.PassesOn(e.htlc, e.sent)
              && (c.build.Dev? ==> e.trade.swapType.amountMsats > 0)
      ensures exists done :: done in s.settled && done.trade == e.trade
    {
      ForwardsComeFromTexts(c, s, e);
    }
    forall d ensures Intercept.Sum(log, Intercept.RgbMoved(d)) == Intercept.Sum(log, Intercept.RgbAgreed(d)) {
      Intercept.AssetsBalance(log, trade => true, d);
    }
    if c.build.Dev? || (forall done :: done in s.settled ==> Intercept.Protected(done.trade)) {
      Intercept.NoLoss(log, Intercept.Protected);
    }
    if c.build.Dev? || (forall done :: done in s.settled ==> Intercept.Capped(done.trade)) {
      Intercept.NoExcess(log, Intercept.Capped);
    }
  }

  /** Executing a readable offer in time, over two legs, records a payment of the
      offer's msats under its hash, pending or failed. */
  lemma ExecutionIsRecorded(c: Codec, s: System, text: Text, time: u64, first: seq<MakerRoute.Hop>,
                            second: seq<MakerRoute.Hop>, accepted: bool)
    requires MakerRoute.Plain(first, second)
    requires c.read(text).Ok? && time <= c.read(text).swap.expiry
    ensures var swap := c.read(text).swap;
            var t := Next(c, s, MakerExecutes(text, time, Some((first, second)), accepted));
            && t.executed == s.executed + [Execution(text, first, second)]
            && swap.paymentHash in Maker(t).outbound
            && Maker(t).outbound[swap.paymentHash] ==
               Bookkeeping.PaymentInfo(None, None, if accepted then Bookkeeping.Pending else Bookkeeping.Failed,
                                       Some(swap.trade.swapType.amountMsats))
  {
    var swap := c.read(text).swap;
    RunGrows(s.run, Bookkeeping.Started(swap.paymentHash, None, Some(swap.trade.swapType.amountMsats), accepted));
  }

  /** The HTLC reaches the taker over the path that was stitched for an execution. */
  ghost predicate CarriesExecution(c: Codec, e: Execution, htlc: Intercept.Htlc) {
    var read := Meaning(c, e.text);
    read.Some? && read.value.0 == htlc.hash && MakerRoute.CarriesStitched(read.value.1, e.first, e.second, c.flag, htlc)
  }

  /** In every reachable state, an HTLC over the path of any execution so far, for
      a hash the taker whitelisted from the same text, is forwarded exactly when
      the channels next to the taker carry the asset on the inspected side only
      and the msats fit; and the maker has that payment on its books. */
  lemma ExecutedOfferIsForwarded(c: Codec, s: System, e: Execution, htlc: Intercept.Htlc)
    requires Faithful(c) && Reachable(c, s) && e in s.executed && CarriesExecution(c, e, htlc)
    requires htlc.hash in s.taker.whitelist && htlc.hash in s.read && s.read[htlc.hash] == e.text
    ensures Meaning(c, e.text) == Some((htlc.hash, s.taker.whitelist[htlc.hash]))
    ensures htlc.hash in Maker(s).outbound
    ensures Intercept.Accepts(s.taker.whitelist, htlc) <==>
            MakerRoute.ChannelsAndMsatsFit(s.taker.whitelist[htlc.hash], htlc)
  {
    hide FromStr, Reachable, MakerRoute.CarriesStitched, MakerRoute.ChannelsAndMsatsFit, Intercept.Settles;
    ReachableKeepsInv(c, s);
    MakerRoute.StitchedPathMeetsTheTaker(s.taker.whitelist[htlc.hash], e.first, e.second, c.flag, htlc);
  }

  lemma {:induction false} RunExtends(c: Codec, s: System, evs: seq<Event>, t: System, ev: Event)
    requires Leads(c, s, evs, t) && Enabled(t, ev)
    ensures Leads(c, s, evs + [ev], Next(c, t, ev))
    decreases |evs|
  {
    hide Enabled, Next;
    if evs == [] {
      assert [] + [ev] == [ev] && [ev][1..] == [];
    } else {
      RunExtends(c, Next(c, s, evs[0]), evs[1..], t, ev);
      assert (evs + [ev])[1..] == evs[1..] + [ev];
    }
  }

  lemma StepReaches(c: Codec, s: System, ev: Event)
    requires Reachable(c, s) && Enabled(s, ev)
    ensures Reachable(c, Next(c, s, ev))
  {
    hide Enabled, Next;
    var evs :| Leads(c, START, evs, s);
    RunExtends(c, START, evs, s, ev);
  }

  /** Both tables hold the same trade under the hash, and the taker's came from
      the maker's printed text. */
  ghost predicate Agreed(s: System, h: PaymentHash) {
    && HoldsOffer(s, h)
    && h in Maker(s).trades && Maker(s).trades[h] == s.taker.whitelist[h]
  }

  /** An offer can be taken: in any reachable state, one that passes the maker's
      checks and is read in time by a taker that can cover it puts the same trade
      in both tables, and an HTLC that settles it is forwarded. */
  lemma OffersCanBeTaken(c: Codec, s: System, offer: Event, clock: u64, holding: u64, htlc: Intercept.Htlc)
    requires Faithful(c) && Reachable(c, s)
    requires offer.MakerInit? && Enabled(s, offer) && OfferedTrade(c.build, offer).Some?
    ensures var trade := OfferedTrade(c.build, offer).value;
            var printed := Next(c, s, offer);
            offer.hash in printed.offers &&
            var taken := Next(c, printed, TakerReads(printed.offers[offer.hash], clock, holding));
            Reachable(c, taken)
            && (clock <= offer.now + offer.timeout && (trade.swapType.SellAsset? ==> offer.amount <= holding)
                ==> Agreed(taken, offer.hash)
                    && (htlc.hash == offer.hash && Intercept.Settles(trade, htlc)
                        ==> var done := Settlement(printed.offers[offer.hash], trade, htlc);
                            done in Next(c, taken, Intercepted(htlc)).settled))
  {
    hide FromStr, Offer, Product, Reachable, Intercept.Settles, NewHash;
    var trade := OfferedTrade(c.build, offer).value;
    var printed := Next(c, s, offer);
    var text := printed.offers[offer.hash];
    StepReaches(c, s, offer);
    StepReaches(c, printed, TakerReads(text, clock, holding));
    InitMeansItsTrade(c, s, offer);
    RunGrows(s.run, Bookkeeping.Offered(offer.hash, trade));
    OfferThenFromStr(c.build, c.id, offer.amount, offer.asset, trade.swapType.Side(), offer.price,
                     offer.now + offer.timeout, offer.hash);
  }

  /** Why a release build needs the extra hypothesis: for any amounts, it reaches
      a state in which the taker has read a printed offer to sell and paid for
      selling. */
  lemma ReleaseSaleCanCost(c: Codec, hash: PaymentHash, inMsat: u64, outMsat: u64) returns (s: System)
    requires Faithful(c) && c.build.Release? && inMsat <= outMsat
    ensures Reachable(c, s)
    ensures Intercept.Sum(s.taker.log, Intercept.MsatMoved()) ==
            Intercept.Sum(s.taker.log, Intercept.MsatAgreed()) - (outMsat - inMsat)
  {
    hide Faithful, Reachable, Intercept.Sum, Intercept.Settles, FromStr, Offer;
    var trade := Trade(0, SellAsset(0x1_0000_0000, 0));
    var htlc := Intercept.Htlc(true, hash, 0, 0, inMsat, outMsat, None, Some(0x1_0000_0000), None, Some(0));
    var taken := ZeroSaleIsTaken(c, hash);
    SettlesAtZero(trade, htlc);
    StepReaches(c, taken, Intercepted(htlc));
    s := Next(c, taken, Intercepted(htlc));
    TwoEntries(hash, trade, htlc, s.taker.log[1].sent, s.taker.log);
  }

  lemma SettlesAtZero(trade: Trade, htlc: Intercept.Htlc)
    requires trade.swapType.SellAsset? && trade.swapType.amountMsats == 0 && htlc.inMsat <= htlc.outMsat
    requires htlc.inContract == None && htlc.outContract == Some(trade.contract)
    requires htlc.outRgb == Some(trade.swapType.amountRgb)
    ensures Intercept.Settles(trade, htlc)
  {
    Intercept.ZeroPriceSaleCanCost(trade, htlc);
  }

  lemma ZeroSaleIsTaken(c: Codec, hash: PaymentHash) returns (taken: System)
    requires Faithful(c) && c.build.Release?
    ensures var trade := Trade(0, SellAsset(0x1_0000_0000, 0));
            Reachable(c, taken) && taken.taker.whitelist == map[hash := trade]
            && taken.taker.log == [Intercept.Whitelisted(hash, trade, false)]
  {
    hide Faithful, Reachable, FromStr, Offer, NewHash, Intercept.Settles;
    var offer := MakerInit(0x1_0000_0000, 0, SELL, 0x1_0000_0000, 1, 0, hash, 0);
    var htlc := Intercept.Htlc(true, hash, 0, 0, 0, 0, None, None, None, None);
    StartIsReady(c, hash);
    assert OfferedTrade(c.build, offer) == Some(Trade(0, SellAsset(0x1_0000_0000, 0)));
    OffersCanBeTaken(c, START, offer, 0, 0x1_0000_0000, htlc);
    var printed := Next(c, START, offer);
    taken := Next(c, printed, TakerReads(printed.offers[hash], 0, 0x1_0000_0000));
    TakenExactly(c, printed, printed.offers[hash], 0, 0x1_0000_0000);
  }

  lemma TwoEntries(hash: PaymentHash, trade: Trade, htlc: Intercept.Htlc, sent: Intercept.Forwarding,
                   log: seq<Intercept.Entry>)
    requires log == [Intercept.Whitelisted(hash, trade, false), Intercept.Forwarded(trade, htlc, sent)]
    ensures Intercept.Sum(log, Intercept.MsatMoved()) == Intercept.MsatChange(htlc, sent)
    ensures Intercept.Sum(log, Intercept.MsatAgreed()) == Intercept.AgreedMsat(trade)
  {
    var one := log[..|log| - 1];
    assert one == [log[0]] && one[..|one| - 1] == [];
    assert Intercept.Sum(one, Intercept.MsatMoved()) == Intercept.Sum(one, Intercept.MsatAgreed()) == 0;
  }

  lemma StartIsReady(c: Codec, hash: PaymentHash)
    ensures Reachable(c, START) && NewHash(START, hash)
  {
    assert Leads(c, START, [], START);
  }

  // ---- What each step does

  /** `makerinit` goes through exactly when its numbers are not zero, the side is
      one of two, the product exists and, if the taker is to buy, the maker holds
      the asset; then it prints an offer and records that trade, and else does
      nothing. */
  lemma OfferedExactly(c: Codec, s: System, ev: Event)
    requires ev.MakerInit? && Enabled(s, ev)
    ensures var t, msats := Next(c, s, ev), Product(c.build, ev.amount, ev.price);
            && (t != s <==> ev.timeout > 0 && ev.price > 0 && ev.amount > 0 && (ev.side == BUY || ev.side == SELL)
                            && msats.Some? && (ev.side == BUY ==> ev.amount <= ev.balance))
            && (t != s ==>
                  var swapType := if ev.side == BUY then BuyAsset(ev.amount, msats.value)
                                  else SellAsset(ev.amount, msats.value);
                  Maker(t) == Maker(s).(trades := Maker(s).trades[ev.hash := Trade(ev.asset, swapType)])
                  && t == s.(run := t.run, offers := s.offers[ev.hash :=
                       Offer(c.id, ev.amount, ev.asset, ev.side, ev.price, ev.now + ev.timeout, ev.hash)]))
  {
    hide Product, Offer;
    assert BUY[0] != SELL[0];
    if OfferedTrade(c.build, ev).Some? {
      RunGrows(s.run, Bookkeeping.Offered(ev.hash, OfferedTrade(c.build, ev).value));
      assert |Next(c, s, ev).run| == |s.run| + 1;
    }
  }

  /** A reading of the text that is in time and covered. */
  predicate Whitelists(c: Codec, ev: Event, h: PaymentHash, trade: Trade) {
    ev.TakerReads? && c.read(ev.text).Ok? &&
    var swap := c.read(ev.text).swap;
    swap.paymentHash == h && swap.trade == trade && ev.clock <= swap.expiry
    && (trade.swapType.SellAsset? ==> trade.swapType.amountRgb <= ev.holding)
  }

  /** `taker` does anything exactly when the text is readable, has not expired
      and, for a sale, is covered; then it whitelists the trade it read. */
  lemma TakenExactly(c: Codec, s: System, text: Text, clock: u64, holding: u64)
    ensures var ev, read := TakerReads(text, clock, holding), c.read(text);
            var t := Next(c, s, ev);
            && (t != s <==> read.Ok? && clock <= read.swap.expiry
                            && (read.swap.trade.swapType.SellAsset? ==> read.swap.trade.swapType.amountRgb <= holding))
            && (t != s ==> Whitelists(c, ev, read.swap.paymentHash, read.swap.trade)
                           && t.taker.whitelist == s.taker.whitelist[read.swap.paymentHash := read.swap.trade]
                           && t == s.(taker := t.taker, read := s.read[read.swap.paymentHash := text]))
  {
    if Taken(c, text, clock, holding).Some? {
      assert |Next(c, s, TakerReads(text, clock, holding)).taker.log| == |s.taker.log| + 1;
    }
  }

  /** `makerexecute` starts a payment exactly when the offer is readable and has
      not expired, and the preimage and both legs are found. */
  lemma ExecutedExactly(c: Codec, s: System, ev: Event)
    requires ev.MakerExecutes? && Enabled(s, ev)
    ensures var t, read := Next(c, s, ev), c.read(ev.offer);
            && (t != s <==> read.Ok? && ev.time <= read.swap.expiry && ev.legs.Some?)
            && (t != s ==>
                  Maker(t).trades == Maker(s).trades && Maker(t).inbound == Maker(s).inbound
                  && Maker(t).outbound - {read.swap.paymentHash} == Maker(s).outbound - {read.swap.paymentHash}
                  && t == s.(run := t.run, executed := s.executed
                             + [Execution(ev.offer, ev.legs.value.0, ev.legs.value.1)]))
  {
    var t := Next(c, s, ev);
    if |t.run| != |s.run| {
      RunGrows(s.run, t.run[|s.run|]);
    }
  }

  /** An HTLC reaches the taker's handler and a payment event the maker's tables,
      and neither anything else. */
  lemma HandledExactly(c: Codec, s: System, htlc: Intercept.Htlc, e: Bookkeeping.Event)
    requires Enabled(s, Payment(e))
    ensures var t := Next(c, s, Intercepted(htlc));
            t == s.(taker := Intercept.Next(s.taker, Intercept.Intercepted(htlc)), settled := t.settled)
    ensures var t := Next(c, s, Payment(e));
            t == s.(run := t.run) && Maker(t) == Bookkeeping.Next(Maker(s), e)
  {
    hide Intercept.Next, Bookkeeping.Next;
    RunGrows(s.run, e);
  }

  ghost predicate Entered(log: seq<Intercept.Entry>, h: PaymentHash, trade: Trade) {
    exists e :: e in log && e.Whitelisted? && e.hash == h && e.trade == trade
  }

  lemma StepEnters(c: Codec, s: System, ev: Event, h: PaymentHash, trade: Trade)
    requires Enabled(s, ev)
    ensures Entered(Next(c, s, ev).taker.log, h, trade) <==>
            Entered(s.taker.log, h, trade) || Whitelists(c, ev, h, trade)
  {
    hide FromStr, Intercept.Settles, OfferedTrade, Offer;
    var log := Next(c, s, ev).taker.log;
    if log != s.taker.log {
      assert log == s.taker.log + [log[|s.taker.log|]];
      assert log[|s.taker.log|] in log;
      if Entered(s.taker.log, h, trade) {
        var e :| e in s.taker.log && e.Whitelisted? && e.hash == h && e.trade == trade;
        assert e in log;
      }
    }
  }

  /** Over every run, the trades the taker ever whitelisted are exactly those of
      its readings that were in time and covered. */
  lemma {:induction false} WhitelistedExactly(c: Codec, s: System, evs: seq<Event>, t: System, h: PaymentHash,
                                              trade: Trade)
    requires Leads(c, s, evs, t)
    ensures Entered(t.taker.log, h, trade) <==>
            Entered(s.taker.log, h, trade) || exists ev :: ev in evs && Whitelists(c, ev, h, trade)
    decreases |evs|
  {
    hide Enabled, Next, Whitelists, Entered;
    if evs != [] {
      StepEnters(c, s, evs[0], h, trade);
      WhitelistedExactly(c, Next(c, s, evs[0]), evs[1..], t, h, trade);
      assert evs == [evs[0]] + evs[1..];
    }
  }
}
