/** What holds of a node over every run of commands and events. */
module NodeRuns {
  import opened Prelude
  import opened Ledger
  import opened UtxoList
  import opened NodeState
  import opened NodeInvariant
  import opened NodeSteps
  import opened NodeChannelSteps
  import Sweep

  lemma StepKeepsInv(s: State, ev: Event)
    requires Inv(s) && Enabled(s, ev)
    ensures Inv(Next(s, ev).0)
  {
    hide Inv;
    match ev
    case Deposit(txid, vouts) => SpendUnlistedKeepsInv(s, txid, {}, Outputs(txid, vouts));
    case CreateUtxos(txid, inputs, change) => CreateUtxosKeepsInv(s, txid, inputs, change);
    case IssueAsset(c, o, amount, valid) => IssueKeepsInv(s, c, o, amount, valid);
    case SendAsset(c, amount, posted, txid, drained, o) => SendKeepsInv(s, c, amount, posted, txid, drained, o);
    case ReceiveAsset => ReceiveKeepsInv(s);
    case RefreshFile(file, delivery) => RefreshKeepsInv(s, file, delivery);
    case FundingReady(txid, coloring, fees, drain, wraps) =>
      FundingReadyKeepsInv(s, txid, coloring, fees, drain, wraps);
    case FundingSeen(txid, o, changeOpout) => FundingSeenKeepsInv(s, txid, o, changeOpout);
    case PeerFunding(txid, c) => PeerFundingKeepsInv(s, txid, c);
    case ChannelClosed(o, txid, bundle, outs) => CloseKeepsInv(s, o, txid, bundle, outs);
    case SpendableOutput(o, valid, txid, outputs, swept) => SweepKeepsInv(s, o, valid, txid, outputs, swept);
  }

  /** A run of enabled events leads from one state to another. */
  ghost predicate Leads(s: State, evs: seq<Event>, t: State)
    decreases |evs|
  {
    if evs == [] then s == t else Enabled(s, evs[0]) && Leads(Next(s, evs[0]).0, evs[1..], t)
  }

  lemma {:induction false} RunKeepsInv(s: State, evs: seq<Event>, t: State)
    requires Inv(s) && Leads(s, evs, t)
    ensures Inv(t)
    decreases |evs|
  {
    hide Inv, Next, Enabled;
    if evs != [] {
      StepKeepsInv(s, evs[0]);
      RunKeepsInv(Next(s, evs[0]).0, evs[1..], t);
    }
  }

  ghost predicate Reachable(s: State) {
    exists evs :: Leads(START, evs, s)
  }

  lemma StartIsInv()
    ensures Inv(START)
  {}

  lemma ReachableIsInv(s: State)
    requires Reachable(s)
    ensures Inv(s)
  {
    hide Inv, Next, Enabled;
    var evs :| Leads(START, evs, s);
    StartIsInv();
    RunKeepsInv(START, evs, s);
  }

  /** The unstated discipline of the UTXO list, in every reachable state. */
  lemma ListDiscipline(s: State)
    requires Reachable(s)
    ensures Distinct(s.utxos)
    ensures forall o :: o in s.history && s.history[o].seal in s.unspent ==> RgbUtxo(s.history[o].seal, true) in s.utxos
    ensures forall p :: RgbUtxo(p, false) in s.utxos ==> p in s.unspent && Empty(s.history, p)
    ensures SingleOn(s.history, s.unspent)
  {
    ReachableIsInv(s);
  }

  lemma ColoringExtends(s: State, ev: Event)
    requires Distinct(s.utxos) && (ev.IssueAsset? || ev.SendAsset? || ev.ReceiveAsset?) && Enabled(s, ev)
    ensures Extends(s.utxos, Next(s, ev).0.utxos)
  {
    hide Enabled, Selected, Total, ColorFree, FirstUncolored, ChangeRecord, Credit, Seals;
    if HasUncolored(s.utxos) {
      ColorFreeChanges(s.utxos);
    }
  }

  lemma PushingExtends(s: State, ev: Event)
    requires !ev.IssueAsset? && !ev.SendAsset? && !ev.ReceiveAsset? && Enabled(s, ev)
    ensures Extends(s.utxos, Next(s, ev).0.utxos)
  {
    hide Enabled, Selected, Total;
  }

  lemma StepExtends(s: State, ev: Event)
    requires Distinct(s.utxos) && Enabled(s, ev)
    ensures Extends(s.utxos, Next(s, ev).0.utxos)
  {
    hide Enabled, Next, Extends;
    if ev.IssueAsset? || ev.SendAsset? || ev.ReceiveAsset? {
      ColoringExtends(s, ev);
    } else {
      PushingExtends(s, ev);
    }
  }

  lemma ImportsKeepSupply(s: State, ev: Event, c: ContractId)
    requires Enabled(s, ev) && c in s.supply && (ev.IssueAsset? || ev.RefreshFile? || ev.PeerFunding?)
    ensures c in Next(s, ev).0.supply && Next(s, ev).0.supply[c] == s.supply[c]
  {
    hide DoSend, DoReceive, DoFundingReady, DoFundingSeen, DoClose, DoSweep, DoCreateUtxos, ColorFree, FirstUncolored;
  }

  lemma StepKeepsSupply(s: State, ev: Event, c: ContractId)
    requires Enabled(s, ev) && c in s.supply
    ensures c in Next(s, ev).0.supply && Next(s, ev).0.supply[c] == s.supply[c]
  {
    hide Enabled, DoIssue, DoRefresh, DoPeerFunding, Selected, Total, Seals, FirstUncolored, ChangeRecord, Shares;
    if ev.IssueAsset? || ev.RefreshFile? || ev.PeerFunding? {
      ImportsKeepSupply(s, ev, c);
    }
  }

  lemma InvIsDistinct(s: State)
    requires Inv(s)
    ensures Distinct(s.utxos)
  {}

  /** Over every run the list only grows: entries keep their place, no flag is
      ever reset, and no supply is ever revised. */
  lemma {:induction false} RunExtends(s: State, evs: seq<Event>, t: State)
    requires Inv(s) && Leads(s, evs, t)
    ensures Extends(s.utxos, t.utxos)
    ensures forall c :: c in s.supply ==> c in t.supply && t.supply[c] == s.supply[c]
    decreases |evs|
  {
    hide Inv, Next, Enabled;
    if evs != [] {
      StepKeepsInv(s, evs[0]);
      InvIsDistinct(s);
      StepExtends(s, evs[0]);
      forall c | c in s.supply
        ensures c in Next(s, evs[0]).0.supply && Next(s, evs[0]).0.supply[c] == s.supply[c]
      {
        StepKeepsSupply(s, evs[0], c);
      }
      RunExtends(Next(s, evs[0]).0, evs[1..], t);
    }
  }

  lemma {:induction false} LeadsFurther(s: State, evs: seq<Event>, t: State, ev: Event)
    requires Leads(s, evs, t) && Enabled(t, ev)
    ensures Leads(s, evs + [ev], Next(t, ev).0)
    decreases |evs|
  {
    hide Enabled, Next;
    if evs == [] {
      assert [] + [ev] == [ev] && [ev][1..] == [];
    } else {
      LeadsFurther(Next(s, evs[0]).0, evs[1..], t, ev);
      assert (evs + [ev])[1..] == evs[1..] + [ev];
    }
  }

  lemma StepReaches(s: State, ev: Event)
    requires Reachable(s) && Enabled(s, ev)
    ensures Reachable(Next(s, ev).0)
  {
    hide Enabled, Next;
    var evs :| Leads(START, evs, s);
    LeadsFurther(START, evs, s, ev);
  }

  // ---- Conservation

  ghost function InChannels(s: State, c: ContractId): nat {
    Total(s.history, On(s.history, c, s.ldk))
  }

  /** In every reachable state, what the wallet, the channels and others hold of
      a contract, with what was burnt, is its supply, so no sum overflows u64. */
  lemma SupplyIsConserved(s: State, c: ContractId)
    requires Reachable(s) && c in s.supply
    ensures c in s.outside && c in s.burnt
    ensures Balance(s, c) + InChannels(s, c) + s.outside[c] + s.burnt[c] == s.supply[c] <= U64_MAX
  {
    ReachableIsInv(s);
    Conserved(s, c);
  }

  lemma Conserved(s: State, c: ContractId)
    requires Inv(s) && c in s.supply
    ensures c in s.outside && c in s.burnt
    ensures Balance(s, c) + InChannels(s, c) + s.outside[c] + s.burnt[c] == s.supply[c] <= U64_MAX
  {
    assert Balanced(s, c);
    TotalUnion(s.history, Held(s, c), On(s.history, c, s.ldk));
    assert On(s.history, c, Live(s)) == Held(s, c) + On(s.history, c, s.ldk);
  }
}
