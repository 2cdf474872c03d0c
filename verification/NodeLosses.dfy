/** How assets are lost: by which steps, how much, and that they can be. */
module NodeLosses {
  import opened Prelude
  import opened Ledger
  import opened UtxoList
  import opened NodeState
  import opened NodeInvariant
  import opened NodeChannelSteps
  import opened NodeRuns
  import opened NodeEffects
  import Sweep

  /** What a step burns: the change of a funding whose change output was not
      made, and a sweep whose seal misses the wallet's output. */
  function Burns(s: State, ev: Event, c: ContractId): nat {
    match ev
    case FundingSeen(txid, _, _) =>
      if txid in s.fundings && s.fundings[txid].contract == Some(c) && !s.fundings[txid].drain
      then s.fundings[txid].change else 0
    case SpendableOutput(o, valid, _, outputs, _) =>
      if valid && o in s.history && s.history[o].contract == c && !Sweep.SealHolds(outputs)
      then s.history[o].amount else 0
    case _ => 0
  }

  /** Steps that may enter a contract in the books burn nothing of a known one. */
  lemma ImportsBurnNothing(s: State, ev: Event, c: ContractId)
    requires ev.IssueAsset? || ev.RefreshFile? || ev.PeerFunding?
    requires Enabled(s, ev) && c in s.burnt && c in s.supply
    ensures c in Next(s, ev).0.burnt && Next(s, ev).0.burnt[c] == s.burnt[c]
  {
    hide DoSend, DoReceive, DoFundingReady, DoFundingSeen, DoClose, DoSweep, DoCreateUtxos, ColorFree, FirstUncolored;
  }

  lemma OthersBurnNothing(s: State, ev: Event, c: ContractId)
    requires !ev.IssueAsset? && !ev.RefreshFile? && !ev.PeerFunding? && !ev.FundingSeen? && !ev.SpendableOutput?
    requires Enabled(s, ev) && c in s.burnt
    ensures c in Next(s, ev).0.burnt && Next(s, ev).0.burnt[c] == s.burnt[c]
  {
    hide Enabled, Selected, Total, ColorFree, FirstUncolored, Seals, ChangeRecord, Shares;
  }

  lemma BurntExactly(s: State, ev: Event, c: ContractId)
    requires Reachable(s) && Enabled(s, ev) && c in s.supply
    ensures c in s.burnt && c in Next(s, ev).0.burnt
    ensures Next(s, ev).0.burnt[c] == s.burnt[c] + Burns(s, ev, c)
  {
    hide Reachable, Enabled, Next, Burns, Inv;
    ReachableIsInv(s);
    BurntMoves(s, ev, c);
  }

  lemma BurntMoves(s: State, ev: Event, c: ContractId)
    requires Inv(s) && Enabled(s, ev) && c in s.supply
    ensures c in s.burnt && c in Next(s, ev).0.burnt
    ensures Next(s, ev).0.burnt[c] == s.burnt[c] + Burns(s, ev, c)
  {
    hide Structure, AmountsOk, ClosingsOk;
    assert Balanced(s, c);
    if ev.SpendableOutput? {
      SweptAmount(s, ev.opout);
    } else if ev.IssueAsset? || ev.RefreshFile? || ev.PeerFunding? {
      ImportsBurnNothing(s, ev, c);
    } else if !ev.FundingSeen? {
      OthersBurnNothing(s, ev, c);
    }
  }

  /** What anyone can still spend of a contract. */
  ghost function Spendable(s: State, c: ContractId): nat
    requires c in s.outside
  {
    Balance(s, c) + InChannels(s, c) + s.outside[c]
  }

  /** In every reachable state, every step leaves the live allocations of every
      contract, with what others hold, at what they were, but for those two
      losses. */
  lemma LossesAreExactly(s: State, ev: Event, c: ContractId)
    requires Reachable(s) && Enabled(s, ev) && c in s.supply
    ensures c in s.outside && c in Next(s, ev).0.outside
    ensures Spendable(Next(s, ev).0, c) == Spendable(s, c) - Burns(s, ev, c)
  {
    hide Reachable, Enabled, Next, Burns, Balance, InChannels;
    StepReaches(s, ev);
    SupplyIsConserved(s, c);
    StepKeepsSupply(s, ev, c);
    SupplyIsConserved(Next(s, ev).0, c);
    BurntExactly(s, ev, c);
  }

  /** Over every run, what can be spent falls by exactly what its steps burn. */
  ghost function RunBurns(s: State, evs: seq<Event>, t: State, c: ContractId): nat
    requires Leads(s, evs, t)
    decreases |evs|
  {
    if evs == [] then 0 else Burns(s, evs[0], c) + RunBurns(Next(s, evs[0]).0, evs[1..], t, c)
  }

  lemma {:induction false} LossesOverRuns(s: State, evs: seq<Event>, t: State, c: ContractId)
    requires Reachable(s) && Leads(s, evs, t) && c in s.supply
    ensures c in s.outside && c in t.outside
    ensures Spendable(t, c) == Spendable(s, c) - RunBurns(s, evs, t, c)
    decreases |evs|
  {
    hide Reachable, Next, Enabled, Burns, Spendable;
    if evs == [] {
      SupplyIsConserved(s, c);
    } else {
      LossesAreExactly(s, evs[0], c);
      StepReaches(s, evs[0]);
      StepKeepsSupply(s, evs[0], c);
      LossesOverRuns(Next(s, evs[0]).0, evs[1..], t, c);
    }
  }

  // ---- Runs that lose assets

  /** A node that issued its only asset on the first of four new UTXOs. */
  function Issued(total: u64): State {
    START.(utxos := NewUtxos(1, 4)[0 := RgbUtxo(Outpoint(1, 0), true)],
           unspent := Outputs(1, {0, 1, 2, 3}),
           history := map[0 := Allocation(0, Outpoint(1, 0), total)],
           txids := {0, 1}, supply := map[0 := total], outside := map[0 := 0], burnt := map[0 := 0])
  }

  function WithUtxos(): State {
    START.(utxos := NewUtxos(1, 4), unspent := Outputs(1, {0, 1, 2, 3}), txids := {0, 1})
  }

  function Deposited(): State {
    START.(unspent := Outputs(0, {0}), txids := {0})
  }

  lemma DepositedIsReachable()
    ensures Reachable(Deposited())
  {
    assert Leads(START, [], START);
    hide Reachable, Leads;
    StepReaches(START, Deposit(0, {0}));
    assert Next(START, Deposit(0, {0})).0 == Deposited();
  }

  lemma ListedIsReachable()
    ensures Reachable(WithUtxos())
  {
    hide Reachable, Leads;
    DepositedIsReachable();
    var s, create := Deposited(), CreateUtxos(1, {Outpoint(0, 0)}, false);
    assert Unspendable(s.utxos, None) == {};
    StepReaches(s, create);
    assert Next(s, create).0 == WithUtxos();
  }

  lemma IssuedIsReachable(total: u64)
    ensures Reachable(Issued(total))
  {
    ListedIsReachable();
    hide Reachable;
    var s := WithUtxos();
    assert !s.utxos[0].colored;
    assert FirstUncolored(s.utxos) == 0;
    StepReaches(s, IssueAsset(0, 0, total, true));
    assert Next(s, IssueAsset(0, 0, total, true)).0 == Issued(total);
  }

  /** All or part of it is on the way to a channel, in a transaction that may or
      may not have a drain output. */
  function Given(total: u64, amount: u64, drain: bool): Funding
    requires amount <= total
  {
    Funding(Some(0), amount, total - amount, {Outpoint(1, 0)}, {}, {0}, drain)
  }

  function Awaiting(total: u64, amount: u64, drain: bool): State
    requires amount <= total
  {
    var s := Issued(total);
    s.(utxos := if amount < total then s.utxos + [RgbUtxo(Outpoint(2, 2), true)] else s.utxos,
       fundings := map[2 := Given(total, amount, drain)], txids := {0, 1, 2})
  }

  lemma OneIsSelected(h: History, o: Opout, amount: nat)
    requires o in h && 0 < amount <= h[o].amount
    ensures Selected(h, {o}, amount) == {o} && Total(h, {o}) == h[o].amount
  {
    TotalOne(h, o);
    SelectedIsLeastCover(h, {o}, amount);
    assert Total(h, {}) == 0;
    assert Selected(h, {o}, amount) != {};
  }

  lemma AwaitingIsReachable(total: u64, amount: u64, drain: bool)
    requires 0 < amount <= total
    ensures Reachable(Awaiting(total, amount, drain))
  {
    hide Reachable, Selected, Total;
    IssuedIsReachable(total);
    var s, ev := Issued(total), FundingReady(2, Some((0, amount)), {}, drain, false);
    assert Held(s, 0) == {0};
    OneIsSelected(s.history, 0, amount);
    assert Seals(s.history, {0}) == {Outpoint(1, 0)};
    StepReaches(s, ev);
    assert Next(s, ev).0 == Awaiting(total, amount, drain);
  }

  /** Funding a channel with part of an allocation, when the transaction has no
      drain output, burns the rest of it: such a run exists for every amount. */
  lemma FundingCanBurn(total: u64, amount: u64) returns (s: State)
    requires 0 < amount < total
    ensures Reachable(s) && 0 in s.supply && 0 in s.outside && 0 in s.burnt
    ensures s.supply[0] == total && s.burnt[0] == total - amount && Spendable(s, 0) == amount
  {
    hide Reachable, Spendable;
    AwaitingIsReachable(total, amount, false);
    var a := Awaiting(total, amount, false);
    StepReaches(a, FundingSeen(2, 1, 2));
    s := Next(a, FundingSeen(2, 1, 2)).0;
    SpendableIsTheRest(s, 0);
  }

  lemma SpendableIsTheRest(s: State, c: ContractId)
    requires Reachable(s) && c in s.supply
    ensures c in s.outside && c in s.burnt && Spendable(s, c) + s.burnt[c] == s.supply[c]
  {
    SupplyIsConserved(s, c);
  }

  function InChannel(total: u64): State {
    var s := Issued(total);
    s.(unspent := Outputs(1, {1, 2, 3}), ldk := {Outpoint(2, 0)}, txids := {0, 1, 2},
       history := s.history[1 := Allocation(0, Outpoint(2, 0), total)])
  }

  lemma InChannelIsReachable(total: u64)
    requires 0 < total
    ensures Reachable(InChannel(total))
  {
    hide Reachable;
    AwaitingIsReachable(total, total, false);
    var a := Awaiting(total, total, false);
    StepReaches(a, FundingSeen(2, 1, 2));
    assert Next(a, FundingSeen(2, 1, 2)).0 == InChannel(total);
  }

  /** The channel's closing gives all of it back to the node on output 0. */
  function AllBack(total: u64): Sweep.Bundle {
    [Some([[Sweep.Revealed(0, total)]])]
  }

  lemma AllBackIsAll(total: u64)
    ensures Sweep.Flat(AllBack(total)) == [Sweep.Revealed(0, total)]
    ensures Sweep.RevealedTotal([Sweep.Revealed(0, total)]) == total
    ensures Sweep.ShareAt([Sweep.Revealed(0, total)], 0) == total
  {
    var one := [Sweep.Revealed(0, total)];
    var groups: Sweep.Transition := [one];
    assert one[..0] == [] && groups[..0] == [] && AllBack(total)[..0] == [];
    assert Sweep.Concat(groups) == Sweep.Concat([]) + one;
  }

  function Closed(total: u64): State {
    var s := InChannel(total);
    s.(ldk := {Outpoint(3, 0)}, txids := {0, 1, 2, 3}, closings := map[3 := Closing(0, AllBack(total))],
       history := s.history[3 := Allocation(0, Outpoint(3, 0), total)])
  }

  lemma ClosedIsReachable(total: u64)
    requires 0 < total
    ensures Reachable(Closed(total))
  {
    hide Reachable;
    InChannelIsReachable(total);
    AllBackIsAll(total);
    var outs := [ClosingOutput(0, 3)];
    var s, ev := InChannel(total), ChannelClosed(1, 3, AllBack(total), outs);
    assert Indices(outs) == [0] && [0][..0] == [];
    assert Sweep.SumShares(Sweep.Flat(AllBack(total)), [0]) == total;
    assert outs[..0] == [];
    assert ClosingOutpoints(3, outs) == {Outpoint(3, 0)};
    assert Shares(0, 3, Sweep.Flat(AllBack(total)), outs) == map[3 := Allocation(0, Outpoint(3, 0), total)];
    StepReaches(s, ev);
    assert Next(s, ev).0 == Closed(total);
  }

  /** Sweeping a closed channel with a transaction whose only output is the
      OP_RETURN burns all of it. */
  lemma SweepCanBurn(total: u64) returns (s: State)
    requires 0 < total
    ensures Reachable(s) && 0 in s.supply && 0 in s.outside && 0 in s.burnt
    ensures s.supply[0] == s.burnt[0] == total && Spendable(s, 0) == 0
  {
    hide Reachable, Spendable;
    ClosedIsReachable(total);
    AllBackIsAll(total);
    var a, ev := Closed(total), SpendableOutput(3, true, 4, [true], 4);
    Sweep.SealHoldsExactly([true], 0);
    StepReaches(a, ev);
    s := Next(a, ev).0;
    SpendableIsTheRest(s, 0);
  }

  // ---- Entries of transactions that are never sent

  /** The transaction is known, but was neither seen nor given away. */
  ghost predicate Unsent(s: State, txid: Txid) {
    txid in s.txids && txid !in s.fundings && forall p :: p in Live(s) ==> p.txid != txid
  }

  lemma IssueKeepsLive(s: State, c: ContractId, o: Opout, amount: nat, valid: bool)
    ensures var t := DoIssue(s, c, o, amount, valid).0;
            Live(t) == Live(s) && t.fundings == s.fundings && t.txids == s.txids
  {}

  lemma RefreshKeepsLive(s: State, file: Outpoint, delivery: Delivery)
    requires Receivable(s, delivery)
    ensures var t := DoRefresh(s, file, delivery).0;
            Live(t) == Live(s) && t.fundings == s.fundings && t.txids == s.txids
  {}

  lemma BuildKeepsUnsent(s: State, x: Txid, coloring: Option<(ContractId, u64)>, fees: set<Outpoint>, drain: bool,
                         wraps: bool, txid: Txid)
    requires x !in s.txids && Unsent(s, txid)
    ensures Unsent(DoFundingReady(s, x, coloring, fees, drain, wraps).0, txid)
  {
    hide Selected, Total, Seals;
  }

  lemma WalletStepKeepsUnsent(s: State, ev: Event, txid: Txid)
    requires Enabled(s, ev) && Unsent(s, txid) && (ev.Deposit? || ev.CreateUtxos? || ev.SendAsset?)
    ensures Unsent(Next(s, ev).0, txid)
  {
    hide DoIssue, DoRefresh, DoReceive, DoFundingReady, DoFundingSeen, DoPeerFunding, DoClose, DoSweep, Selected,
         Total, FirstUncolored, Seals, ChangeRecord;
  }

  lemma ChannelStepKeepsUnsent(s: State, ev: Event, txid: Txid)
    requires Enabled(s, ev) && Unsent(s, txid)
    requires ev.FundingSeen? || ev.PeerFunding? || ev.ChannelClosed? || ev.SpendableOutput?
    ensures Unsent(Next(s, ev).0, txid)
  {
    hide Shares, FundingRecord, Indices, Sweep.ShareAt, Sweep.SumShares;
  }

  lemma StepKeepsUnsent(s: State, ev: Event, txid: Txid)
    requires Enabled(s, ev) && Unsent(s, txid)
    ensures Unsent(Next(s, ev).0, txid)
  {
    hide DoSend, DoIssue, DoRefresh, DoFundingReady, DoFundingSeen, DoPeerFunding, DoClose, DoSweep, DoCreateUtxos,
         Excluded;
    match ev
    case IssueAsset(c, o, amount, valid) => IssueKeepsLive(s, c, o, amount, valid);
    case RefreshFile(file, delivery) => RefreshKeepsLive(s, file, delivery);
    case ReceiveAsset =>
    case FundingReady(x, coloring, fees, drain, wraps) => BuildKeepsUnsent(s, x, coloring, fees, drain, wraps, txid);
    case Deposit(_, _) => WalletStepKeepsUnsent(s, ev, txid);
    case CreateUtxos(_, _, _) => WalletStepKeepsUnsent(s, ev, txid);
    case SendAsset(_, _, _, _, _, _) => WalletStepKeepsUnsent(s, ev, txid);
    case _ => ChannelStepKeepsUnsent(s, ev, txid);
  }

  /** It never will be: no run brings any of its outputs to life. */
  lemma {:induction false} UnsentForever(s: State, evs: seq<Event>, t: State, txid: Txid)
    requires Leads(s, evs, t) && Unsent(s, txid)
    ensures Unsent(t, txid)
    decreases |evs|
  {
    hide Next, Enabled, Unsent;
    if evs != [] {
      StepKeepsUnsent(s, evs[0], txid);
      UnsentForever(Next(s, evs[0]).0, evs[1..], t, txid);
    }
  }

  /** Asking a channel for more than was issued, in a release build, lists an
      entry whose transaction is unsent: for every issue such a run exists. */
  lemma WrappedFundingDangles(total: u64) returns (s: State)
    requires total < U64_MAX
    ensures Reachable(s) && RgbUtxo(Outpoint(2, 2), true) in s.utxos && Unsent(s, 2)
  {
    hide Reachable, Selected, Total;
    IssuedIsReachable(total);
    var a, ev := Issued(total), FundingReady(2, Some((0, total + 1)), {}, true, true);
    assert Held(a, 0) == {0};
    TotalOne(a.history, 0);
    FundingOutcome(a, 2, Some((0, total + 1)), {}, true, true);
    StepReaches(a, ev);
    s := Next(a, ev).0;
    assert s.utxos[4] == RgbUtxo(Outpoint(2, 2), true);
  }
}
