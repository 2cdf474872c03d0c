/** Where a contract's supply is: how each step, and each run, moves it between
    the wallet, the channels and others. */
module NodeFlows {
  import opened Prelude
  import opened Ledger
  import opened UtxoList
  import opened NodeState
  import opened NodeInvariant
  import opened NodeSteps
  import opened NodeChannelSteps
  import opened NodeRuns
  import opened NodeEffects
  import opened NodeLosses
  import opened NodeLaws
  import Sweep

  // ---- Contracts

  /** A step that makes a contract known, with its supply: an issue, or a transfer
      to us or to a channel of ours, accepted or not. */
  predicate Introduces(s: State, ev: Event, c: ContractId, supply: nat) {
    c !in s.supply &&
    match ev
    case IssueAsset(d, _, amount, valid) => d == c && amount == supply && valid && HasUncolored(s.utxos)
    case RefreshFile(_, Refused(d, n)) => d == c && n == supply
    case RefreshFile(_, Accepted(t)) => t.contract == c && t.supply == supply
    case PeerFunding(_, t) => t.contract == c && t.supply == supply
    case _ => false
  }

  predicate Knows(s: State, c: ContractId, supply: nat) {
    c in s.supply && s.supply[c] == supply
  }

  lemma RefreshIntroduces(s: State, ev: Event, c: ContractId, supply: nat)
    requires Enabled(s, ev) && ev.RefreshFile?
    ensures Knows(Next(s, ev).0, c, supply) <==> Knows(s, c, supply) || Introduces(s, ev, c, supply)
  {
    hide Enabled, Next, Deliverable;
    NextRefresh(s, ev);
  }

  lemma ImportersIntroduce(s: State, ev: Event, c: ContractId, supply: nat)
    requires Enabled(s, ev) && (ev.IssueAsset? || ev.PeerFunding?)
    ensures Knows(Next(s, ev).0, c, supply) <==> Knows(s, c, supply) || Introduces(s, ev, c, supply)
  {
    hide DoSend, DoReceive, DoRefresh, DoFundingReady, DoFundingSeen, DoClose, DoSweep, DoCreateUtxos, ColorFree,
         FirstUncolored;
  }

  lemma OthersIntroduceNothing(s: State, ev: Event)
    requires Enabled(s, ev) && !ev.IssueAsset? && !ev.RefreshFile? && !ev.PeerFunding?
    ensures Next(s, ev).0.supply == s.supply
  {
    hide Enabled, DoIssue, DoRefresh, DoPeerFunding, Selected, Total, Seals, FirstUncolored, ChangeRecord, Shares;
  }

  /** A contract is known, with a supply, after a step if and only if it was, or
      the step introduces it so. */
  lemma SupplyFollowsTheStep(s: State, ev: Event, c: ContractId, supply: nat)
    requires Enabled(s, ev)
    ensures Knows(Next(s, ev).0, c, supply) <==> Knows(s, c, supply) || Introduces(s, ev, c, supply)
  {
    hide Enabled, Next;
    if ev.RefreshFile? {
      RefreshIntroduces(s, ev, c, supply);
    } else if ev.IssueAsset? || ev.PeerFunding? {
      ImportersIntroduce(s, ev, c, supply);
    } else {
      OthersIntroduceNothing(s, ev);
    }
  }

  // ---- What others hold

  /** What a step takes from others, and what it gives them: transfers to us and
      to channels of ours, against sends and the part of a closing that is not
      ours. */
  function Taken(ev: Event, c: ContractId): nat {
    match ev
    case RefreshFile(_, Accepted(t)) => if t.contract == c then t.amount else 0
    case PeerFunding(_, t) => if t.contract == c then t.amount else 0
    case _ => 0
  }

  ghost function Given(s: State, ev: Event, c: ContractId): int
    requires Enabled(s, ev)
  {
    match ev
    case SendAsset(d, amount, _, _, _, _) => if d == c && Next(s, ev).1 == Done then amount else 0
    case ChannelClosed(o, _, bundle, outs) =>
      if s.history[o].contract == c then s.history[o].amount - Sweep.SumShares(Sweep.Flat(bundle), Indices(outs)) else 0
    case _ => 0
  }

  /** A contract just introduced by others is wholly theirs, one just issued not
      at all. */
  ghost function OutsideBefore(s: State, ev: Event, c: ContractId): nat
    requires Inv(s) && Enabled(s, ev)
  {
    if c in s.supply then Outside(s, c)
    else if ev.IssueAsset? then 0
    else if c in Next(s, ev).0.supply then Next(s, ev).0.supply[c] else 0
  }

  ghost function Outside(s: State, c: ContractId): nat
    requires Inv(s) && c in s.supply
  {
    assert Balanced(s, c);
    s.outside[c]
  }

  ghost predicate OutsideFollows(s: State, ev: Event, c: ContractId)
    requires Inv(s) && Enabled(s, ev)
  {
    var t := Next(s, ev).0;
    c in t.supply ==>
      c in t.outside && t.outside[c] == OutsideBefore(s, ev, c) + Given(s, ev, c) - Taken(ev, c)
      && (c !in s.supply ==> c in t.burnt && t.burnt[c] == 0)
  }

  lemma IssueKeepsOutside(s: State, ev: Event, c: ContractId)
    requires Inv(s) && Enabled(s, ev) && ev.IssueAsset?
    ensures OutsideFollows(s, ev, c)
  {
    hide Structure, ClosingsOk, AmountsOk, DoSend, DoReceive, DoRefresh, DoFundingReady, DoFundingSeen, DoPeerFunding,
         DoClose, DoSweep, DoCreateUtxos, ColorFree, FirstUncolored;
    if c in s.supply {
      assert Balanced(s, c);
    }
  }

  lemma RefreshTakes(s: State, ev: Event, c: ContractId)
    requires Inv(s) && Enabled(s, ev) && ev.RefreshFile?
    ensures OutsideFollows(s, ev, c)
  {
    hide Enabled, Next, Structure, ClosingsOk, AmountsOk;
    NextRefresh(s, ev);
    if c in s.supply {
      assert Balanced(s, c);
    }
  }

  lemma PeerTakes(s: State, ev: Event, c: ContractId)
    requires Inv(s) && Enabled(s, ev) && ev.PeerFunding?
    ensures OutsideFollows(s, ev, c)
  {
    hide Structure, ClosingsOk, AmountsOk, DoSend, DoReceive, DoIssue, DoFundingReady, DoFundingSeen, DoRefresh,
         DoClose, DoSweep, DoCreateUtxos;
    if c in s.supply {
      assert Balanced(s, c);
    }
  }

  lemma SendGives(s: State, ev: Event, c: ContractId)
    requires Inv(s) && Enabled(s, ev) && ev.SendAsset?
    ensures OutsideFollows(s, ev, c)
  {
    hide Structure, ClosingsOk, AmountsOk, DoSend, DoReceive, DoIssue, DoFundingReady, DoFundingSeen, DoRefresh,
         DoPeerFunding, DoClose, DoSweep, DoCreateUtxos, Selected, Total, LeavesChange, ColorFree, FirstUncolored;
    SendChanges(s, ev.contract, ev.amount, ev.posted, ev.txid, ev.drained, ev.opout);
    if c in s.supply {
      assert c in s.outside by { assert Balanced(s, c); }
    }
  }

  lemma CloseGives(s: State, ev: Event, c: ContractId)
    requires Inv(s) && Enabled(s, ev) && ev.ChannelClosed?
    ensures OutsideFollows(s, ev, c)
  {
    hide Structure, ClosingsOk, AmountsOk, DoSend, DoReceive, DoIssue, DoFundingReady, DoFundingSeen, DoRefresh,
         DoPeerFunding, DoSweep, DoCreateUtxos, Shares, Sweep.SumShares, Sweep.ShareAt;
    if c in s.supply {
      assert Balanced(s, c);
    }
  }

  lemma ListingGivesNoOne(s: State, ev: Event)
    requires Enabled(s, ev) && (ev.Deposit? || ev.CreateUtxos? || ev.ReceiveAsset? || ev.FundingReady?)
    ensures Next(s, ev).0.outside == s.outside && Next(s, ev).0.supply == s.supply
  {
    hide Enabled, DoSend, DoIssue, DoRefresh, DoFundingReady, DoFundingSeen, DoPeerFunding, DoClose, DoSweep, ColorFree,
         FirstUncolored, Lists, Forced;
    if ev.FundingReady? {
      ReadyChanges(s, ev.txid, ev.coloring, ev.fees, ev.drain, ev.wraps);
    }
  }

  lemma OthersGiveNoOne(s: State, ev: Event)
    requires Enabled(s, ev) && (ev.FundingSeen? || ev.SpendableOutput?)
    ensures Next(s, ev).0.outside == s.outside && Next(s, ev).0.supply == s.supply
  {
    hide Enabled, DoSend, DoReceive, DoIssue, DoRefresh, DoFundingReady, DoPeerFunding, DoClose, DoCreateUtxos,
         FundingRecord;
  }

  lemma SilentKeepsOutside(s: State, ev: Event, c: ContractId)
    requires Inv(s) && Enabled(s, ev)
    requires ev.Deposit? || ev.CreateUtxos? || ev.ReceiveAsset? || ev.FundingReady? || ev.FundingSeen?
             || ev.SpendableOutput?
    ensures OutsideFollows(s, ev, c)
  {
    hide Enabled, Next, Structure, ClosingsOk, AmountsOk;
    if ev.FundingSeen? || ev.SpendableOutput? {
      OthersGiveNoOne(s, ev);
    } else {
      ListingGivesNoOne(s, ev);
    }
    if c in s.supply {
      assert Balanced(s, c);
    }
  }

  lemma OutsideMoves(s: State, ev: Event, c: ContractId)
    requires Inv(s) && Enabled(s, ev)
    ensures OutsideFollows(s, ev, c)
  {
    hide Inv, Enabled, Next, OutsideFollows;
    match ev
    case IssueAsset(_, _, _, _) => IssueKeepsOutside(s, ev, c);
    case RefreshFile(_, _) => RefreshTakes(s, ev, c);
    case PeerFunding(_, _) => PeerTakes(s, ev, c);
    case SendAsset(_, _, _, _, _, _) => SendGives(s, ev, c);
    case ChannelClosed(_, _, _, _) => CloseGives(s, ev, c);
    case _ => SilentKeepsOutside(s, ev, c);
  }

  /** In every reachable state, what others hold of a known contract changes by
      exactly what a step gives and takes. */
  lemma OutsideFollowsTheStep(s: State, ev: Event, c: ContractId)
    requires Reachable(s) && Enabled(s, ev) && c in s.supply
    ensures c in s.outside && c in Next(s, ev).0.outside
    ensures Next(s, ev).0.outside[c] == s.outside[c] + Given(s, ev, c) - Taken(ev, c)
  {
    hide Reachable, Enabled, Next, Inv, Given, Taken;
    ReachableIsInv(s);
    OutsideMoves(s, ev, c);
    StepKeepsSupply(s, ev, c);
    SupplyIsConserved(s, c);
  }

  // ---- What channels hold

  /** What a step moves into channels: the amount of a funding, ours or a peer's;
      and out of them: what is not ours of a closing, and a swept output. */
  ghost function ChannelEffect(s: State, ev: Event, c: ContractId): int
    requires Enabled(s, ev)
  {
    match ev
    case FundingSeen(txid, _, _) => if s.fundings[txid].contract == Some(c) then s.fundings[txid].amount else 0
    case PeerFunding(_, t) => if t.contract == c then t.amount else 0
    case ChannelClosed(_, _, _, _) => 0 - Given(s, ev, c)
    case SpendableOutput(o, valid, _, _, _) =>
      if valid && s.history[o].contract == c then 0 - s.history[o].amount else 0
    case _ => 0
  }

  lemma UnknownIsNowhere(s: State, c: ContractId)
    requires Inv(s) && c !in s.supply
    ensures Balance(s, c) == InChannels(s, c) == 0
  {
    hide Structure, ClosingsOk, AmountsOk;
    NoneOn(s.history, c, s.unspent);
    NoneOn(s.history, c, s.ldk);
  }

  /** The effects of a step add up: nothing appears or goes but by an issue and
      by what is burnt. */
  lemma EffectsAddUp(s: State, ev: Event, c: ContractId)
    requires Inv(s) && Enabled(s, ev) && c in s.supply
    ensures Effect(s, ev, c) + ChannelEffect(s, ev, c) + Given(s, ev, c) - Taken(ev, c) + Burns(s, ev, c) == 0
  {
    hide Structure, ClosingsOk, AmountsOk, BooksOk, DoSend, DoReceive, DoIssue, DoFundingReady, DoFundingSeen,
         DoRefresh,
         DoPeerFunding, DoClose, DoSweep, DoCreateUtxos, Sweep.SumShares, Sweep.SealHolds;
  }

  lemma KnownChannelsFollow(s: State, ev: Event, c: ContractId)
    requires Inv(s) && Enabled(s, ev) && c in s.supply
    ensures InChannels(Next(s, ev).0, c) == InChannels(s, c) + ChannelEffect(s, ev, c)
  {
    hide Inv, Enabled, Next, Effect, ChannelEffect, Given, Taken, Burns, Balance, InChannels;
    StepKeepsInv(s, ev);
    StepKeepsSupply(s, ev, c);
    Conserved(s, c);
    Conserved(Next(s, ev).0, c);
    BalanceFollowsTheStep(s, ev, c);
    BurntMoves(s, ev, c);
    OutsideMoves(s, ev, c);
    EffectsAddUp(s, ev, c);
  }

  lemma NewContractIsPlaced(s: State, ev: Event, c: ContractId)
    requires Inv(s) && Enabled(s, ev) && c !in s.supply && c in Next(s, ev).0.supply
    ensures OutsideBefore(s, ev, c) - Taken(ev, c) + Given(s, ev, c) + Effect(s, ev, c) + ChannelEffect(s, ev, c) ==
            Next(s, ev).0.supply[c]
  {
    hide Inv, Enabled, Next, Sweep.SumShares;
    SupplyFollowsTheStep(s, ev, c, Next(s, ev).0.supply[c]);
  }

  lemma NewChannelsFollow(s: State, ev: Event, c: ContractId)
    requires Inv(s) && Enabled(s, ev) && c !in s.supply && c in Next(s, ev).0.supply
    ensures InChannels(Next(s, ev).0, c) == ChannelEffect(s, ev, c)
  {
    hide Inv, Enabled, Next, Effect, ChannelEffect, Given, Taken, Balance, InChannels, OutsideBefore;
    StepKeepsInv(s, ev);
    Conserved(Next(s, ev).0, c);
    BalanceFollowsTheStep(s, ev, c);
    OutsideMoves(s, ev, c);
    UnknownIsNowhere(s, c);
    NewContractIsPlaced(s, ev, c);
  }

  lemma UnknownStaysNowhere(s: State, ev: Event, c: ContractId)
    requires Inv(s) && Enabled(s, ev) && c !in s.supply && c !in Next(s, ev).0.supply
    ensures ChannelEffect(s, ev, c) == 0
  {
    hide HoldersOk, ListOk, ClosingsOk, AmountsOk, DoSend, DoReceive, DoIssue, DoFundingReady, DoFundingSeen,
         DoRefresh, DoClose, DoSweep, DoCreateUtxos, Sweep.SumShares;
    if ev.FundingSeen? {
      assert FundingOk(s, ev.txid, s.fundings[ev.txid]);
    }
  }

  /** In every reachable state, what channels hold of any contract changes by
      exactly the step's effect. */
  lemma ChannelsFollowTheStep(s: State, ev: Event, c: ContractId)
    requires Inv(s) && Enabled(s, ev)
    ensures InChannels(Next(s, ev).0, c) == InChannels(s, c) + ChannelEffect(s, ev, c)
  {
    hide Inv, Enabled, Next, ChannelEffect, InChannels;
    if c in s.supply {
      KnownChannelsFollow(s, ev, c);
    } else {
      UnknownIsNowhere(s, c);
      if c in Next(s, ev).0.supply {
        NewChannelsFollow(s, ev, c);
      } else {
        StepKeepsInv(s, ev);
        UnknownIsNowhere(Next(s, ev).0, c);
        UnknownStaysNowhere(s, ev, c);
      }
    }
  }

  ghost function RunChannelEffect(s: State, evs: seq<Event>, t: State, c: ContractId): int
    requires Leads(s, evs, t)
    decreases |evs|
  {
    if evs == [] then 0 else ChannelEffect(s, evs[0], c) + RunChannelEffect(Next(s, evs[0]).0, evs[1..], t, c)
  }

  /** Over every run, channels hold what the steps so far add up to. */
  lemma {:induction false} ChannelsFollowTheRun(s: State, evs: seq<Event>, t: State, c: ContractId)
    requires Inv(s) && Leads(s, evs, t)
    ensures InChannels(t, c) == InChannels(s, c) + RunChannelEffect(s, evs, t, c)
    decreases |evs|
  {
    hide Inv, Next, Enabled, InChannels, ChannelEffect;
    if evs != [] {
      StepKeepsInv(s, evs[0]);
      ChannelsFollowTheStep(s, evs[0], c);
      ChannelsFollowTheRun(Next(s, evs[0]).0, evs[1..], t, c);
    }
  }

  ghost function RunGiven(s: State, evs: seq<Event>, t: State, c: ContractId): int
    requires Leads(s, evs, t)
    decreases |evs|
  {
    if evs == [] then 0
    else Given(s, evs[0], c) - Taken(evs[0], c) + RunGiven(Next(s, evs[0]).0, evs[1..], t, c)
  }

  /** So do others. */
  lemma {:induction false} OutsideFollowsTheRun(s: State, evs: seq<Event>, t: State, c: ContractId)
    requires Reachable(s) && Leads(s, evs, t) && c in s.supply
    ensures c in s.outside && c in t.outside && t.outside[c] == s.outside[c] + RunGiven(s, evs, t, c)
    decreases |evs|
  {
    hide Reachable, Next, Enabled, Given, Taken;
    if evs == [] {
      SupplyIsConserved(s, c);
    } else {
      OutsideFollowsTheStep(s, evs[0], c);
      StepReaches(s, evs[0]);
      StepKeepsSupply(s, evs[0], c);
      OutsideFollowsTheRun(Next(s, evs[0]).0, evs[1..], t, c);
    }
  }

  // ---- Outcomes of the remaining commands

  /** Exactly what stops an issue, a receipt, a refresh or a sweep. */
  lemma OutcomesExactly(s: State, ev: Event)
    requires Enabled(s, ev)
    ensures var outcome := Next(s, ev).1;
            && (ev.IssueAsset? ==> outcome == if !HasUncolored(s.utxos) then NoAvailableUtxos
                                              else if ev.valid then Done else Aborted)
            && (ev.ReceiveAsset? ==> outcome == if HasUncolored(s.utxos) then Done else NoAvailableUtxos)
            && (ev.RefreshFile? ==> (outcome == if ev.delivery.Accepted? then Done else Skipped))
            && (ev.SpendableOutput? ==> (outcome == if ev.valid then Done else Skipped))
  {
    hide Enabled, DoSend, DoFundingReady, DoFundingSeen, DoPeerFunding, DoClose, DoCreateUtxos, ColorFree,
         FirstUncolored;
  }
}
