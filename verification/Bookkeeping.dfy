/** The maker's trade table and the payment tables of a node (src/main.rs,
    payment events; src/cli.rs, `maker_init`, `get_invoice`, `send_payment`). */
module Bookkeeping {
  import opened Prelude
  import opened SwapString

  datatype Status = Pending | Succeeded | Failed

  datatype PaymentInfo = PaymentInfo(
    preimage: Option<Text>, secret: Option<Text>, status: Status, amtMsat: Option<u64>)

  type Payments = map<PaymentHash, PaymentInfo>

  datatype Purpose = InvoicePayment(preimage: Option<Text>, paymentSecret: Text) | Spontaneous(keysendPreimage: Text)
  {
    function Preimage(): Option<Text> {
      if InvoicePayment? then preimage else Some(keysendPreimage)
    }

    function Secret(): Option<Text> {
      if InvoicePayment? then Some(paymentSecret) else None
    }
  }

  datatype Books = Books(trades: map<PaymentHash, Trade>, inbound: Payments, outbound: Payments)

  datatype Event =
    | Offered(hash: PaymentHash, trade: Trade)
    | Invoiced(hash: PaymentHash, secret: Text, amt: u64)
    | Claimed(hash: PaymentHash, purpose: Purpose, amt: u64)
    | Started(hash: PaymentHash, paymentSecret: Option<Text>, total: Option<u64>, accepted: bool)
    | Sent(hash: PaymentHash, paymentPreimage: Text)
    | PaymentFailed(hash: PaymentHash)

  function Next(b: Books, ev: Event): Books {
    match ev
    case Offered(hash, trade) => b.(trades := b.trades[hash := trade])
    case Invoiced(hash, secret, amt) =>
      b.(inbound := b.inbound[hash := PaymentInfo(None, Some(secret), Pending, Some(amt))])
    case Claimed(hash, purpose, amt) =>
      var amount := if hash in b.inbound then b.inbound[hash].amtMsat else Some(amt);
      b.(inbound := b.inbound[hash := PaymentInfo(purpose.Preimage(), purpose.Secret(), Succeeded, amount)],
         trades := b.trades - {hash})
    case Started(hash, paymentSecret, total, accepted) =>
      b.(outbound := b.outbound[hash := PaymentInfo(None, paymentSecret, if accepted then Pending else Failed, total)])
    case Sent(hash, paymentPreimage) => b.(outbound := Completed(b.outbound, hash, paymentPreimage))
    case PaymentFailed(hash) =>
      if hash in b.outbound then b.(outbound := b.outbound[hash := b.outbound[hash].(status := Failed)]) else b
  }

  /** The single-key update of an outbound payment that went through. */
  function Completed(payments: Payments, hash: PaymentHash, paymentPreimage: Text): Payments {
    if hash in payments
    then payments[hash := payments[hash].(preimage := Some(paymentPreimage), status := Succeeded)]
    else payments
  }

  class Node {
    var makerTrades: map<PaymentHash, Trade>
    var inboundPayments: map<PaymentHash, PaymentInfo>
    var outboundPayments: map<PaymentHash, PaymentInfo>

    ghost function State(): Books
      reads this
    {
      Books(makerTrades, inboundPayments, outboundPayments)
    }

    constructor ()
      ensures State() == Books(map[], map[], map[])
    {
      makerTrades, inboundPayments, outboundPayments := map[], map[], map[];
    }

    method MakerInit(hash: PaymentHash, trade: Trade)
      modifies this`makerTrades
      ensures State() == Next(old(State()), Offered(hash, trade))
    {
      makerTrades := makerTrades[hash := trade];
    }

    method PaymentClaimed(hash: PaymentHash, purpose: Purpose, amountMsat: u64)
      modifies this
      ensures State() == Next(old(State()), Claimed(hash, purpose, amountMsat))
    {
      if hash in inboundPayments {
        var payment := inboundPayments[hash];
        payment := payment.(status := Succeeded);
        payment := payment.(preimage := purpose.Preimage());
        payment := payment.(secret := purpose.Secret());
        inboundPayments := inboundPayments[hash := payment];
      } else {
        var payment := PaymentInfo(purpose.Preimage(), purpose.Secret(), Succeeded, Some(amountMsat));
        inboundPayments := inboundPayments[hash := payment];
      }
      makerTrades := makerTrades - {hash};
    }

    /** The handler visits every outbound payment looking for the hash. */
    method PaymentSent(paymentHash: PaymentHash, paymentPreimage: Text)
      modifies this`outboundPayments
      ensures State() == Next(old(State()), Sent(paymentHash, paymentPreimage))
    {
      ghost var before := outboundPayments;
      var rest := outboundPayments.Keys;
      while rest != {}
        invariant rest <= before.Keys
        invariant outboundPayments == if paymentHash in rest then before
                                      else Completed(before, paymentHash, paymentPreimage)
        decreases rest
      {
        var hash :| hash in rest;
        rest := rest - {hash};
        if hash == paymentHash {
          var payment := outboundPayments[hash];
          payment := payment.(preimage := Some(paymentPreimage));
          payment := payment.(status := Succeeded);
          outboundPayments := outboundPayments[hash := payment];
        }
      }
    }

    method Fail(paymentHash: PaymentHash)
      modifies this`outboundPayments
      ensures State() == Next(old(State()), PaymentFailed(paymentHash))
    {
      if paymentHash in outboundPayments {
        var payment := outboundPayments[paymentHash];
        outboundPayments := outboundPayments[paymentHash := payment.(status := Failed)];
      }
    }
  }

  /** The hashes of a run's offers, of its invoices, and of its claims. */
  function Issued(evs: seq<Event>): set<PaymentHash> {
    if evs == [] then {}
    else Issued(evs[..|evs| - 1]) + (var last := evs[|evs| - 1]; if last.Offered? then {last.hash} else {})
  }

  function Billed(evs: seq<Event>): set<PaymentHash> {
    if evs == [] then {}
    else Billed(evs[..|evs| - 1]) + (var last := evs[|evs| - 1]; if last.Invoiced? then {last.hash} else {})
  }

  function Paid(evs: seq<Event>): set<PaymentHash> {
    if evs == [] then {}
    else Paid(evs[..|evs| - 1]) + (var last := evs[|evs| - 1]; if last.Claimed? then {last.hash} else {})
  }

  /** `create_inbound_payment` never gives out a hash seen before. */
  ghost predicate Fresh(evs: seq<Event>) {
    evs == [] ||
    var init, last := evs[..|evs| - 1], evs[|evs| - 1];
    Fresh(init) &&
    (last.Offered? || last.Invoiced? ==> last.hash !in Issued(init) + Billed(init) + Paid(init))
  }

  function Run(evs: seq<Event>): Books {
    if evs == [] then Books(map[], map[], map[]) else Next(Run(evs[..|evs| - 1]), evs[|evs| - 1])
  }

  /** Over every run: the trade table holds exactly the offers not yet claimed,
      and a claimed hash is, and stays, succeeded. */
  lemma {:induction false} TablesFollowTheRun(evs: seq<Event>)
    requires Fresh(evs)
    ensures Run(evs).trades.Keys == Issued(evs) - Paid(evs)
    ensures forall h :: h in Paid(evs) ==> h in Run(evs).inbound && Run(evs).inbound[h].status == Succeeded
  {
    if evs != [] {
      TablesFollowTheRun(evs[..|evs| - 1]);
    }
  }

  /** The latest claim or invoice of a hash is a claim. */
  predicate ClaimedLast(evs: seq<Event>, h: PaymentHash) {
    evs != [] &&
    var last := evs[|evs| - 1];
    if last.Claimed? && last.hash == h then true
    else if last.Invoiced? && last.hash == h then false
    else ClaimedLast(evs[..|evs| - 1], h)
  }

  /** With or without fresh hashes, a payment counts as succeeded exactly when
      no invoice followed its latest claim. */
  lemma {:induction false} SucceededExactly(evs: seq<Event>, h: PaymentHash)
    ensures h in Run(evs).inbound && Run(evs).inbound[h].status == Succeeded <==> ClaimedLast(evs, h)
  {
    if evs != [] {
      SucceededExactly(evs[..|evs| - 1], h);
    }
  }

  /** Without fresh hashes a success can be lost: an invoice made again for a
      claimed hash puts it back to pending. */
  lemma ReusedHashForgetsTheClaim(h: PaymentHash, purpose: Purpose, secret: Text, amt: u64)
    ensures var run := [Claimed(h, purpose, amt), Invoiced(h, secret, amt)];
            !Fresh(run) && h in Paid(run) && h in Run(run).inbound && Run(run).inbound[h].status == Pending
  {}

  // ---- Every table, read off the run

  /** The latest and the earliest event of a kind. */
  function Latest(evs: seq<Event>, kind: Event -> bool): (found: Option<Event>)
    ensures found.Some? ==> kind(found.value) && found.value in evs
  {
    if evs == [] then None
    else if kind(evs[|evs| - 1]) then Some(evs[|evs| - 1])
    else Latest(evs[..|evs| - 1], kind)
  }

  function Earliest(evs: seq<Event>, kind: Event -> bool): (found: Option<Event>)
    ensures found.Some? ==> kind(found.value) && found.value in evs
  {
    if evs == [] then None
    else
      var before := Earliest(evs[..|evs| - 1], kind);
      if before == None && kind(evs[|evs| - 1]) then Some(evs[|evs| - 1]) else before
  }

  function Starts(h: PaymentHash): Event -> bool {
    (e: Event) => e.Started? && e.hash == h
  }

  function StartsOrSends(h: PaymentHash): Event -> bool {
    (e: Event) => (e.Started? || e.Sent?) && e.hash == h
  }

  function Outgoing(h: PaymentHash): Event -> bool {
    (e: Event) => (e.Started? || e.Sent? || e.PaymentFailed?) && e.hash == h
  }

  function Invoices(h: PaymentHash): Event -> bool {
    (e: Event) => e.Invoiced? && e.hash == h
  }

  function Claims(h: PaymentHash): Event -> bool {
    (e: Event) => e.Claimed? && e.hash == h
  }

  function Incoming(h: PaymentHash): Event -> bool {
    (e: Event) => (e.Invoiced? || e.Claimed?) && e.hash == h
  }

  function OffersOrClaims(h: PaymentHash): Event -> bool {
    (e: Event) => (e.Offered? || e.Claimed?) && e.hash == h
  }

  /** The outbound table after any run: a payment is there if and only if it was
      started. Secret and amount are the latest start's, and it has a preimage if
      and only if it was sent since. */
  lemma {:induction false} OutboundExactly(evs: seq<Event>, h: PaymentHash)
    ensures h in Run(evs).outbound <==> Latest(evs, Starts(h)).Some?
    ensures h in Run(evs).outbound ==>
              var info, start, sent := Run(evs).outbound[h], Latest(evs, Starts(h)), Latest(evs, StartsOrSends(h));
              && sent.Some?
              && info.secret == start.value.paymentSecret && info.amtMsat == start.value.total
              && info.preimage == (if sent.value.Sent? then Some(sent.value.paymentPreimage) else None)
  {
    if evs != [] {
      OutboundExactly(evs[..|evs| - 1], h);
    }
  }

  /** It has succeeded if and only if the latest thing heard of it is that it was
      sent, and failed if and only if that is a failure or a refused start. */
  lemma {:induction false} OutcomeExactly(evs: seq<Event>, h: PaymentHash)
    ensures h in Run(evs).outbound ==>
              var status, last := Run(evs).outbound[h].status, Latest(evs, Outgoing(h));
              && last.Some?
              && (status == Succeeded <==> last.value.Sent?)
              && (status == Failed <==> last.value.PaymentFailed? || (last.value.Started? && !last.value.accepted))
  {
    if evs != [] {
      OutcomeExactly(evs[..|evs| - 1], h);
    }
  }

  /** The inbound table after any run: a payment is there if and only if it was
      invoiced or claimed. Status, preimage and secret are the latest such
      event's; the amount is the latest invoice's, or the first claim's if there
      never was one. */
  lemma {:induction false} InboundExactly(evs: seq<Event>, h: PaymentHash)
    ensures h in Run(evs).inbound <==> Latest(evs, Incoming(h)).Some?
    ensures h in Run(evs).inbound <==> Latest(evs, Invoices(h)).Some? || Earliest(evs, Claims(h)).Some?
    ensures h in Run(evs).inbound ==>
              var info, last := Run(evs).inbound[h], Latest(evs, Incoming(h)).value;
              var invoice, claim := Latest(evs, Invoices(h)), Earliest(evs, Claims(h));
              && info.status == (if last.Claimed? then Succeeded else Pending)
              && info.preimage == (if last.Claimed? then last.purpose.Preimage() else None)
              && info.secret == (if last.Claimed? then last.purpose.Secret() else Some(last.secret))
              && info.amtMsat == Some(if invoice.Some? then invoice.value.amt else claim.value.amt)
  {
    if evs != [] {
      InboundExactly(evs[..|evs| - 1], h);
    }
  }

  /** The trade table after any run: a hash holds the trade last offered under it
      if and only if that offer came after its latest claim. */
  lemma {:induction false} TradesExactly(evs: seq<Event>, h: PaymentHash)
    ensures h in Run(evs).trades <==>
              Latest(evs, OffersOrClaims(h)).Some? && Latest(evs, OffersOrClaims(h)).value.Offered?
    ensures h in Run(evs).trades ==> Run(evs).trades[h] == Latest(evs, OffersOrClaims(h)).value.trade
  {
    if evs != [] {
      TradesExactly(evs[..|evs| - 1], h);
    }
  }

  /** What a claim's purpose proves: an invoice's preimage may be unknown but its
      secret is not; a spontaneous payment has a preimage and no secret. */
  lemma PurposeExactly(p: Purpose)
    ensures p.InvoicePayment? <==> p.Secret().Some?
    ensures p.InvoicePayment? ==> p == InvoicePayment(p.Preimage(), p.Secret().value)
    ensures p.Spontaneous? ==> p.Preimage().Some? && p == Spontaneous(p.Preimage().value)
  {}
}
