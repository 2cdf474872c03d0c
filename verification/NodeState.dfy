/** The asset-handling state of a node and its steps: the commands and events
    that read or change the UTXO list, with what the chain does in between. */
module NodeState {
  import opened Prelude
  import opened Ledger
  import opened UtxoList
  import Sweep

  const UTXO_NUM: nat := 4

  /** A funding transaction that was built and given away but has not been seen
      on chain. `spends` are the allocations its transition consumes. */
  datatype Funding = Funding(
    contract: Option<ContractId>, amount: nat, change: nat,
    inputs: set<Outpoint>, fees: set<Outpoint>, spends: set<Opout>, drain: bool)

  datatype Closing = Closing(contract: ContractId, bundle: Sweep.Bundle)

  /** `utxos`, `blinded` and `closings` are the node's files, `unspent` is the
      wallet's view, `history` the RGB stash, `ldk` the live channel and closing
      outpoints. `outside` is what others hold on chain, `burnt` what a
      transition put on an output that cannot hold it. */
  datatype State = State(
    utxos: Utxos, unspent: set<Outpoint>, history: History, blinded: set<Outpoint>,
    fundings: map<Txid, Funding>, closings: map<Txid, Closing>, ldk: set<Outpoint>, txids: set<Txid>,
    supply: map<ContractId, nat>, outside: map<ContractId, nat>, burnt: map<ContractId, nat>)

  const START := State([], {}, map[], {}, map[], map[], {}, {}, map[], map[], map[])

  datatype Consignment = Consignment(contract: ContractId, amount: nat, opout: Opout, supply: nat)

  /** What a refresh gets for a file: nothing, a transfer that fails validation
      once its contract is imported, or one that is accepted. */
  datatype Delivery =
    | Missing
    | Refused(contract: ContractId, supply: nat)
    | Accepted(consignment: Consignment)

  datatype ClosingOutput = ClosingOutput(index: nat, opout: Opout)

  datatype Event =
    | Deposit(txid: Txid, vouts: set<nat>)
    | CreateUtxos(txid: Txid, inputs: set<Outpoint>, change: bool)
    | IssueAsset(contract: ContractId, opout: Opout, amount: u64, valid: bool)
    | SendAsset(contract: ContractId, amount: u64, posted: bool, txid: Txid, drained: Option<nat>, opout: Opout)
    | ReceiveAsset
    | RefreshFile(file: Outpoint, delivery: Delivery)
    | FundingReady(txid: Txid, coloring: Option<(ContractId, u64)>, fees: set<Outpoint>, drain: bool, wraps: bool)
    | FundingSeen(txid: Txid, opout: Opout, changeOpout: Opout)
    | PeerFunding(txid: Txid, consigned: Consignment)
    | ChannelClosed(opout: Opout, txid: Txid, bundle: Sweep.Bundle, outs: seq<ClosingOutput>)
    | SpendableOutput(opout: Opout, valid: bool, txid: Txid, outputs: seq<bool>, swept: Opout)

  datatype Outcome = Done | NoAvailableUtxos | UnknownContract | NotEnoughAssets | NotPosted | Skipped | Aborted

  function Held(s: State, c: ContractId): set<Opout> {
    On(s.history, c, s.unspent)
  }

  ghost function Balance(s: State, c: ContractId): nat {
    Total(s.history, Held(s, c))
  }

  /** A transaction with its consequences: outpoints spent and made, and
      allocations recorded. */
  function Settle(s: State, spent: set<Outpoint>, toWallet: set<Outpoint>, toLdk: set<Outpoint>,
                  recorded: History, txs: set<Txid>): State
  {
    s.(unspent := s.unspent - spent + toWallet, ldk := s.ldk - spent + toLdk,
       history := s.history + recorded, txids := s.txids + txs)
  }

  function Outputs(txid: Txid, vouts: set<nat>): set<Outpoint> {
    set v | v in vouts :: Outpoint(txid, v)
  }

  /** Adds to one contract's entry of a book. */
  function Credit(book: map<ContractId, nat>, c: ContractId, amount: nat): map<ContractId, nat> {
    book[c := (if c in book then book[c] else 0) + amount]
  }

  function Debit(book: map<ContractId, nat>, c: ContractId, amount: nat): map<ContractId, nat>
    requires c in book && amount <= book[c]
  {
    book[c := book[c] - amount]
  }

  /** A contract heard of for the first time is wholly in other hands. */
  function Import(s: State, c: ContractId, supply: nat): State {
    if c in s.supply then s
    else s.(supply := s.supply[c := supply], outside := s.outside[c := supply], burnt := s.burnt[c := 0])
  }

  function DoCreateUtxos(s: State, txid: Txid, inputs: set<Outpoint>, change: bool): State {
    var vouts := if change then {0, 1, 2, 3, 4} else {0, 1, 2, 3};
    var t := Settle(s, inputs, Outputs(txid, vouts), {}, map[], {txid});
    t.(utxos := s.utxos + NewUtxos(txid, UTXO_NUM))
  }

  /** The entry is flagged before the ticker, name and precision are validated. */
  function DoIssue(s: State, c: ContractId, o: Opout, amount: nat, valid: bool): (State, Outcome) {
    if !HasUncolored(s.utxos) then (s, NoAvailableUtxos)
    else if !valid then (s.(utxos := ColorFree(s.utxos)), Aborted)
    else
      var t := s.(utxos := ColorFree(s.utxos), supply := s.supply[c := amount],
                  outside := s.outside[c := 0], burnt := s.burnt[c := 0]);
      (Settle(t, {}, {}, {}, map[o := Allocation(c, Free(s.utxos), amount)], {}), Done)
  }

  ghost function Chosen(s: State, c: ContractId, amount: nat): (taken: set<Opout>)
    ensures taken <= Held(s, c) <= s.history.Keys
  {
    Selected(s.history, Held(s, c), amount)
  }

  /** The drain output of a send, unless it would be dust. */
  function Drained(txid: Txid, drained: Option<nat>): set<Outpoint> {
    if drained.Some? then {Outpoint(txid, drained.value)} else {}
  }

  ghost function DoSend(s: State, c: ContractId, amount: nat, posted: bool, txid: Txid, drained: Option<nat>,
                        o: Opout): (State, Outcome)
  {
    if c !in s.supply then (s, UnknownContract)
    else if amount > Balance(s, c) then (s, NotEnoughAssets)
    else
      var taken := Chosen(s, c, amount);
      SelectedIsLeastCover(s.history, Held(s, c), amount);
      var change := Total(s.history, taken) - amount;
      if change > 0 && !HasUncolored(s.utxos) then (s, NoAvailableUtxos)
      else
        var t := if change > 0 then s.(utxos := ColorFree(s.utxos)) else s;
        if taken == {} then (t, Aborted)
        else if !posted then (t, NotPosted)
        else
          var to := if change > 0 then Free(s.utxos) else Outpoint(txid, 0);
          (Settle(t.(outside := Credit(t.outside, c, amount)), Seals(s.history, taken),
                  Drained(txid, drained), {}, ChangeRecord(o, c, to, change), {txid}), Done)
  }

  /** Change is recorded only when there is some. */
  function ChangeRecord(o: Opout, c: ContractId, p: Outpoint, change: nat): History {
    if change > 0 then map[o := Allocation(c, p, change)] else map[]
  }

  function DoReceive(s: State): (State, Outcome) {
    if !HasUncolored(s.utxos) then (s, NoAvailableUtxos)
    else (s.(utxos := ColorFree(s.utxos), blinded := s.blinded + {Free(s.utxos)}), Done)
  }

  function DoRefresh(s: State, file: Outpoint, delivery: Delivery): (State, Outcome)
    requires Receivable(s, delivery)
  {
    match delivery
    case Missing => (s, Skipped)
    case Refused(contract, supply) => (Import(s, contract, supply), Skipped)
    case Accepted(c) =>
      var t := Import(s, c.contract, c.supply);
      var u := t.(outside := Debit(t.outside, c.contract, c.amount), blinded := t.blinded - {file});
      (Settle(u, {}, {}, {}, map[c.opout := Allocation(c.contract, file, c.amount)], {}), Done)
  }

  /** What RGB validation guarantees of an accepted transfer: it moves no more
      than others hold. */
  predicate Deliverable(s: State, c: Consignment) {
    c.opout !in s.history && c.supply <= U64_MAX &&
    if c.contract in s.supply then c.contract in s.outside && c.amount <= s.outside[c.contract]
    else c.amount <= c.supply
  }

  predicate Receivable(s: State, delivery: Delivery) {
    match delivery
    case Missing => true
    case Refused(_, supply) => supply <= U64_MAX
    case Accepted(c) => Deliverable(s, c)
  }

  /** When the selection falls short the change underflows. A development build
      stops there. A release build wraps it, which is never zero, so a change
      entry is pushed before validation stops the funding: `wraps` says so. */
  ghost function DoFundingReady(s: State, txid: Txid, coloring: Option<(ContractId, u64)>, fees: set<Outpoint>,
                                drain: bool, wraps: bool): (State, Outcome) {
    match coloring
    case None =>
      (s.(fundings := s.fundings[txid := Funding(None, 0, 0, {}, fees, {}, drain)], txids := s.txids + {txid}), Done)
    case Some((c, amount)) =>
      if c !in s.supply then (s, Aborted)
      else if Total(s.history, Chosen(s, c, amount)) < amount then
        var listed := s.(utxos := s.utxos + [RgbUtxo(Outpoint(txid, 2), true)], txids := s.txids + {txid});
        (if wraps then listed else s, Aborted)
      else
        var taken := Chosen(s, c, amount);
        var change := Total(s.history, taken) - amount;
        var funding := Funding(Some(c), amount, change, Seals(s.history, taken), fees, taken, drain);
        (s.(utxos := if change > 0 then s.utxos + [RgbUtxo(Outpoint(txid, 2), true)] else s.utxos,
            fundings := s.fundings[txid := funding], txids := s.txids + {txid}), Done)
  }

  /** The outpoints coin selection is forced to use and must leave alone when a
      funding transaction is built. */
  ghost function Forced(s: State, coloring: Option<(ContractId, u64)>): set<Outpoint> {
    match coloring
    case None => {}
    case Some((c, amount)) => Seals(s.history, Chosen(s, c, amount))
  }

  ghost function Excluded(s: State, coloring: Option<(ContractId, u64)>): set<Outpoint> {
    Unspendable(s.utxos, if coloring.Some? then Some(Forced(s, coloring)) else None)
  }

  /** The funding output and, if there is any change, the third output. */
  function FundingRecord(f: Funding, txid: Txid, o: Opout, changeOpout: Opout): History {
    if f.contract == None then map[]
    else if f.change == 0 then map[o := Allocation(f.contract.value, Outpoint(txid, 0), f.amount)]
    else map[o := Allocation(f.contract.value, Outpoint(txid, 0), f.amount),
             changeOpout := Allocation(f.contract.value, Outpoint(txid, 2), f.change)]
  }

  /** The funding is no longer awaited; change is lost if its output was not made. */
  function FundingBooked(s: State, txid: Txid): State
    requires txid in s.fundings
  {
    var f := s.fundings[txid];
    s.(fundings := s.fundings - {txid},
       burnt := if f.contract.Some? && f.change > 0 && !f.drain then Credit(s.burnt, f.contract.value, f.change)
                else s.burnt)
  }

  function DoFundingSeen(s: State, txid: Txid, o: Opout, changeOpout: Opout): State
    requires txid in s.fundings
  {
    var f := s.fundings[txid];
    Settle(FundingBooked(s, txid), f.inputs + f.fees, if f.drain then {Outpoint(txid, 2)} else {}, {Outpoint(txid, 0)},
           FundingRecord(f, txid, o, changeOpout), {txid})
  }

  function DoPeerFunding(s: State, txid: Txid, c: Consignment): State
    requires Deliverable(s, c)
  {
    var t := Import(s, c.contract, c.supply);
    var channel := Outpoint(txid, 0);
    Settle(t.(outside := Debit(t.outside, c.contract, c.amount)), {}, {}, {channel},
           map[c.opout := Allocation(c.contract, channel, c.amount)], {txid})
  }

  function Indices(outs: seq<ClosingOutput>): seq<nat> {
    seq(|outs|, i requires 0 <= i < |outs| => outs[i].index)
  }

  function ClosingOutpoints(txid: Txid, outs: seq<ClosingOutput>): set<Outpoint> {
    Outputs(txid, set i | i in Indices(outs))
  }

  /** One allocation for every closing output of ours, worth its share. */
  function Shares(c: ContractId, txid: Txid, assigns: seq<Sweep.Assign>, outs: seq<ClosingOutput>): History {
    if outs == [] then map[]
    else
      var last := outs[|outs| - 1];
      Shares(c, txid, assigns, outs[..|outs| - 1])
      [last.opout := Allocation(c, Outpoint(txid, last.index), Sweep.ShareAt(assigns, last.index))]
  }

  function DoClose(s: State, o: Opout, txid: Txid, bundle: Sweep.Bundle, outs: seq<ClosingOutput>): State
    requires o in s.history
    requires Sweep.SumShares(Sweep.Flat(bundle), Indices(outs)) <= s.history[o].amount
  {
    var c, assigns := s.history[o].contract, Sweep.Flat(bundle);
    var ours := Sweep.SumShares(assigns, Indices(outs));
    var t := s.(closings := s.closings[txid := Closing(c, bundle)],
                outside := Credit(s.outside, c, s.history[o].amount - ours));
    Settle(t, {s.history[o].seal}, {}, ClosingOutpoints(txid, outs),
           Shares(c, txid, assigns, outs), {txid})
  }

  function DoSweep(s: State, o: Opout, valid: bool, txid: Txid, outputs: seq<bool>, swept: Opout): (State, Outcome)
    requires o in s.history && s.history[o].seal.txid in s.closings
  {
    if !valid then (s, Skipped)
    else
      var from := s.history[o].seal;
      var closing := s.closings[from.txid];
      var amount := Sweep.ShareAt(Sweep.Flat(closing.bundle), from.vout);
      var to := Outpoint(txid, Sweep.SealVout(outputs));
      var t := s.(utxos := s.utxos + [RgbUtxo(to, true)],
                  burnt := if Sweep.SealHolds(outputs) then s.burnt else Credit(s.burnt, closing.contract, amount));
      (Settle(t, {from}, Outputs(txid, set v | 0 <= v < |outputs| && !outputs[v]), {},
              map[swept := Allocation(closing.contract, to, amount)], {txid}), Done)
  }

  /** A closing as the chain allows it: it reveals all of the channel's
      allocation, with one new allocation for each output of ours. */
  ghost predicate Closable(s: State, o: Opout, txid: Txid, assigns: seq<Sweep.Assign>, outs: seq<ClosingOutput>) {
    && txid !in s.txids && o in s.history && s.history[o].seal in s.ldk && s.history[o].seal.txid !in s.closings
    && Sweep.RevealedTotal(assigns) == s.history[o].amount
    && Sweep.NoRepeats(Indices(outs))
    && (forall i :: 0 <= i < |outs| ==> outs[i].opout !in s.history)
    && (forall i, j :: 0 <= i < j < |outs| ==> outs[i].opout != outs[j].opout)
  }

  ghost predicate Sweepable(s: State, o: Opout, txid: Txid, swept: Opout) {
    && txid !in s.txids && swept !in s.history
    && o in s.history && s.history[o].seal in s.ldk && s.history[o].seal.txid in s.closings
  }

  /** What the chain, the wallet and RGB guarantee of a step. New transactions
      and opouts are fresh, coin selection spends only what it may, transitions
      balance, and a funding transaction confirms only if its inputs are unspent. */
  ghost predicate Enabled(s: State, ev: Event) {
    match ev
    case Deposit(txid, vouts) => txid !in s.txids
    case CreateUtxos(txid, inputs, change) =>
      txid !in s.txids && inputs <= s.unspent - Unspendable(s.utxos, None)
    case IssueAsset(c, o, amount, valid) => c !in s.supply && o !in s.history
    case SendAsset(c, amount, posted, txid, drained, o) =>
      txid !in s.txids && o !in s.history
    case ReceiveAsset => true
    case RefreshFile(file, delivery) =>
      file in s.blinded && Receivable(s, delivery)
    case FundingReady(txid, coloring, fees, drain, wraps) =>
      txid !in s.txids && fees <= s.unspent - Forced(s, coloring) - Excluded(s, coloring)
    case FundingSeen(txid, o, changeOpout) =>
      txid in s.fundings && o !in s.history && changeOpout !in s.history && o != changeOpout
      && s.fundings[txid].inputs + s.fundings[txid].fees <= s.unspent
    case PeerFunding(txid, c) => txid !in s.txids && Deliverable(s, c)
    case ChannelClosed(o, txid, bundle, outs) =>
      Closable(s, o, txid, Sweep.Flat(bundle), outs)
    case SpendableOutput(o, valid, txid, outputs, swept) =>
      Sweepable(s, o, txid, swept)
  }

  ghost function Next(s: State, ev: Event): (State, Outcome)
    requires Enabled(s, ev)
  {
    match ev
    case Deposit(txid, vouts) => (Settle(s, {}, Outputs(txid, vouts), {}, map[], {txid}), Done)
    case CreateUtxos(txid, inputs, change) => (DoCreateUtxos(s, txid, inputs, change), Done)
    case IssueAsset(c, o, amount, valid) => DoIssue(s, c, o, amount, valid)
    case SendAsset(c, amount, posted, txid, drained, o) => DoSend(s, c, amount, posted, txid, drained, o)
    case ReceiveAsset => DoReceive(s)
    case RefreshFile(file, delivery) => DoRefresh(s, file, delivery)
    case FundingReady(txid, coloring, fees, drain, wraps) => DoFundingReady(s, txid, coloring, fees, drain, wraps)
    case FundingSeen(txid, o, changeOpout) => (DoFundingSeen(s, txid, o, changeOpout), Done)
    case PeerFunding(txid, c) => (DoPeerFunding(s, txid, c), Done)
    case ChannelClosed(o, txid, bundle, outs) =>
      Sweep.SharesPartition(Sweep.Flat(bundle), Indices(outs));
      (DoClose(s, o, txid, bundle, outs), Done)
    case SpendableOutput(o, valid, txid, outputs, swept) => DoSweep(s, o, valid, txid, outputs, swept)
  }
}
