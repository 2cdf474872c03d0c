/** What each step does to balances, to other contracts, and to the inputs of
    transitions, in every reachable state. */
module NodeEffects {
  import opened Prelude
  import opened Ledger
  import opened UtxoList
  import opened NodeState
  import opened NodeInvariant
  import opened NodeSteps
  import opened NodeChannelSteps
  import opened NodeRuns
  import Sweep

  // ---- Inputs of transitions

  /** The state attached to the inputs chosen for an affordable amount is that
      amount and the change, so the transition balances; and the inputs hold
      nothing else, of this contract or any other. */
  lemma TransitionBalances(s: State, c: ContractId, amount: nat)
    requires Reachable(s)
    ensures var spent := Seals(s.history, Chosen(s, c, amount));
            On(s.history, c, spent) == Chosen(s, c, amount)
            && (forall d :: d != c ==> On(s.history, d, spent) == {})
            && (Total(s.history, On(s.history, c, spent)) >= amount <==> amount <= Balance(s, c))
  {
    ReachableIsInv(s);
    ChosenAreHolders(s, c, amount);
    SelectedIsLeastCover(s.history, Held(s, c), amount);
  }

  /** A send that goes through spends outpoints whose whole state is what the
      recipient gets and what is recorded as change. */
  lemma SentIsAttached(s: State, c: ContractId, amount: u64, posted: bool, txid: Txid, drained: Option<nat>, o: Opout)
    requires Inv(s) && txid !in s.txids && o !in s.history && DoSend(s, c, amount, posted, txid, drained, o).1 == Done
    ensures var t := DoSend(s, c, amount, posted, txid, drained, o).0;
            var attached := On(s.history, c, s.unspent - t.unspent);
            && attached == Chosen(s, c, amount)
            && (forall d :: d != c ==> On(s.history, d, s.unspent - t.unspent) == {})
            && Total(s.history, attached) == amount + (if o in t.history then t.history[o].amount else 0)
  {
    hide Inv, Selected, DoSend, On, Total, FirstUncolored;
    DoneSends(s, c, amount, posted, txid, drained, o);
    ChosenAreHolders(s, c, amount);
    NewIsNotUnspent(s, txid);
    assert s.unspent - DoSend(s, c, amount, posted, txid, drained, o).0.unspent ==
           Seals(s.history, Chosen(s, c, amount));
  }

  lemma NewIsNotUnspent(s: State, txid: Txid)
    requires Inv(s) && txid !in s.txids
    ensures forall p :: p in s.unspent ==> p.txid != txid
  {}

  /** The same for a funding, whose transition reads the state at all inputs of
      its transaction: those added for fees hold nothing, so what is attached is
      the selection, and a plain channel's funding spends no asset at all. */
  lemma FundingTransitionBalances(s: State, coloring: Option<(ContractId, u64)>, fees: set<Outpoint>, d: ContractId)
    requires Reachable(s) && fees <= s.unspent - Forced(s, coloring) - Excluded(s, coloring)
    ensures On(s.history, d, Forced(s, coloring) + fees) ==
            if coloring.Some? && coloring.value.0 == d then Chosen(s, d, coloring.value.1) else {}
  {
    hide Reachable, Selected;
    ReachableIsInv(s);
    FundingAttaches(s, coloring, fees, d);
  }

  lemma FundingAttaches(s: State, coloring: Option<(ContractId, u64)>, fees: set<Outpoint>, d: ContractId)
    requires Inv(s) && fees <= s.unspent - Forced(s, coloring) - Excluded(s, coloring)
    ensures On(s.history, d, Forced(s, coloring) + fees) ==
            if coloring.Some? && coloring.value.0 == d then Chosen(s, d, coloring.value.1) else {}
  {
    hide Inv, Selected, Excluded;
    FeesAreUnlisted(s, coloring, fees);
    EmptyFees(s, fees);
    if coloring.Some? {
      ChosenAreHolders(s, coloring.value.0, coloring.value.1);
    }
    assert On(s.history, d, Forced(s, coloring) + fees) == On(s.history, d, Forced(s, coloring));
  }

  lemma EmptyFees(s: State, fees: set<Outpoint>)
    requires Inv(s) && fees <= s.unspent && forall p :: p in fees ==> !Listed(s.utxos, p)
    ensures forall o :: o in s.history ==> s.history[o].seal !in fees
  {
    UnlistedIsEmpty(s, fees);
  }

  /** Coin selection for a funding transaction is forced to use the chosen
      inputs and to avoid every other listed outpoint, and never both. */
  lemma FundingTouchesOnlyTheChosen(s: State, coloring: Option<(ContractId, u64)>)
    requires Reachable(s)
    ensures Forced(s, coloring) !! Excluded(s, coloring)
    ensures forall p :: p in Forced(s, coloring) + Excluded(s, coloring) <==> Listed(s.utxos, p)
    ensures forall p :: RgbUtxo(p, false) in s.utxos || p in s.blinded ==> p in Excluded(s, coloring)
  {
    ReachableIsInv(s);
    if coloring.Some? {
      ChosenAreHolders(s, coloring.value.0, coloring.value.1);
      UnspendableIsTheRest(s.utxos, Forced(s, coloring));
    } else {
      NothingChosen(s.utxos);
    }
  }

  lemma NothingChosen(utxos: Utxos)
    requires Distinct(utxos)
    ensures forall p :: p in Unspendable(utxos, None) <==> Listed(utxos, p)
  {}

  // ---- Outcomes

  /** Exactly when a send goes through, and which check stops it otherwise. */
  lemma SendOutcome(s: State, c: ContractId, amount: u64, posted: bool, txid: Txid, drained: Option<nat>, o: Opout)
    ensures var outcome := DoSend(s, c, amount, posted, txid, drained, o).1;
            var exact := exists k :: k in Held(s, c) && Total(s.history, UpTo(Held(s, c), k)) == amount;
            && (outcome == UnknownContract <==> c !in s.supply)
            && (outcome == NotEnoughAssets <==> c in s.supply && amount > Balance(s, c))
            && (amount == 0 && c in s.supply ==> outcome == Aborted)
            && (amount > 0 && c in s.supply && amount <= Balance(s, c) ==>
                  outcome == if !exact && !HasUncolored(s.utxos) then NoAvailableUtxos
                             else if !posted then NotPosted else Done)
  {
    var held, taken := Held(s, c), Chosen(s, c, amount);
    SelectedIsLeastCover(s.history, held, amount);
    if amount > 0 && c in s.supply && amount <= Balance(s, c) {
      ExactPrefix(s.history, held, amount);
    }
  }

  /** The same for a funding. One that stops still lists a change entry exactly
      when the selection falls short and the difference wraps. */
  lemma FundingOutcome(s: State, txid: Txid, coloring: Option<(ContractId, u64)>, fees: set<Outpoint>, drain: bool,
                       wraps: bool)
    ensures var (t, outcome) := DoFundingReady(s, txid, coloring, fees, drain, wraps);
            && (outcome == Done <==>
                  coloring == None
                  || (coloring.value.0 in s.supply && coloring.value.1 <= Balance(s, coloring.value.0)))
            && (if outcome == Done then txid in t.fundings else t.fundings == s.fundings)
            && (outcome != Done && t.utxos != s.utxos <==>
                  coloring.Some? && coloring.value.0 in s.supply
                  && coloring.value.1 > Balance(s, coloring.value.0) && wraps)
            && (outcome != Done && t.utxos != s.utxos ==> t.utxos == s.utxos + [RgbUtxo(Outpoint(txid, 2), true)])
  {
    if coloring.Some? {
      SelectedIsLeastCover(s.history, Held(s, coloring.value.0), coloring.value.1);
    }
  }

  /** The keys up to and including one. */
  function UpTo(s: set<Opout>, k: Opout): set<Opout> {
    set o | o in s && o <= k
  }

  /** A selection leaves no change exactly when some run of keys is worth the
      amount to the unit. */
  lemma ExactPrefix(h: History, s: set<Opout>, amount: nat)
    requires s <= h.Keys && 0 < amount <= Total(h, s)
    ensures Selected(h, s, amount) != {}
    ensures Total(h, Selected(h, s, amount)) == amount <==>
            exists k :: k in s && Total(h, UpTo(s, k)) == amount
  {
    var taken := Selected(h, s, amount);
    SelectedIsLeastCover(h, s, amount);
    var last := GreatestOf(taken);
    assert taken == UpTo(s, last);
    if k :| k in s && Total(h, UpTo(s, k)) == amount {
      SelectedIsWithinAnyCover(h, s, amount, UpTo(s, k));
      TotalSplit(h, UpTo(s, k), taken);
    }
  }

  // ---- Balances

  /** What a step does to the wallet's balance of a contract. */
  ghost function Effect(s: State, ev: Event, c: ContractId): int
    requires Enabled(s, ev)
  {
    match ev
    case IssueAsset(d, _, amount, valid) => if c == d && HasUncolored(s.utxos) && valid then amount else 0
    case SendAsset(d, amount, _, _, _, _) => if c == d && Next(s, ev).1 == Done then 0 - amount else 0
    case RefreshFile(_, delivery) =>
      if delivery.Accepted? && delivery.consignment.contract == c then delivery.consignment.amount else 0
    case FundingSeen(txid, _, _) =>
      var f := s.fundings[txid];
      if f.contract == Some(c) then 0 - f.amount - (if f.drain then 0 else f.change) else 0
    case SpendableOutput(o, valid, _, outputs, _) =>
      if valid && s.history[o].contract == c && Sweep.SealHolds(outputs) then s.history[o].amount else 0
    case _ => 0
  }

  lemma SettleMovesBalance(s: State, spent: set<Outpoint>, toWallet: set<Outpoint>, toLdk: set<Outpoint>,
                           recorded: History, txs: set<Txid>, c: ContractId)
    requires recorded.Keys !! s.history.Keys && forall o :: o in s.history ==> s.history[o].seal !in toWallet
    ensures var t := Settle(s, spent, toWallet, toLdk, recorded, txs);
            Balance(t, c) == Balance(s, c) - Total(s.history, On(s.history, c, spent * s.unspent))
                             + Total(recorded, On(recorded, c, t.unspent))
  {
    TotalMoves(s.history, recorded, c, s.unspent, spent * s.unspent,
               Settle(s, spent, toWallet, toLdk, recorded, txs).unspent);
  }

  lemma NothingMoves(s: State, spent: set<Outpoint>, toWallet: set<Outpoint>, toLdk: set<Outpoint>, txs: set<Txid>,
                     c: ContractId)
    requires forall o :: o in s.history ==> s.history[o].seal !in toWallet && s.history[o].seal !in spent * s.unspent
    ensures Balance(Settle(s, spent, toWallet, toLdk, map[], txs), c) == Balance(s, c)
  {
    SettleMovesBalance(s, spent, toWallet, toLdk, map[], txs, c);
    NoneOn(s.history, c, spent * s.unspent);
  }

  lemma SeenFundingMoves(s: State, txid: Txid, o: Opout, changeOpout: Opout, c: ContractId)
    requires Inv(s) && txid in s.fundings && o !in s.history && changeOpout !in s.history && o != changeOpout
    requires s.fundings[txid].inputs + s.fundings[txid].fees <= s.unspent
    ensures var f := s.fundings[txid];
            Balance(DoFundingSeen(s, txid, o, changeOpout), c) ==
            Balance(s, c) + (if f.contract == Some(c) then 0 - f.amount - (if f.drain then 0 else f.change) else 0)
  {
    hide Inv, FundingRecord, Credit;
    var f := s.fundings[txid];
    var t := FundingBooked(s, txid);
    var spent, gained := f.inputs + f.fees, if f.drain then {Outpoint(txid, 2)} else {};
    var r := FundingRecord(f, txid, o, changeOpout);
    assert spent * s.unspent == spent;
    AwaitedIsNew(s, txid, c);
    FundingRecordFits(f, txid, o, changeOpout);
    var after := Settle(t, spent, gained, {Outpoint(txid, 0)}, r, {txid}).unspent;
    SettleMovesBalance(t, spent, gained, {Outpoint(txid, 0)}, r, {txid}, c);
    ChangeArrives(f, txid, o, changeOpout, c, after);
  }

  /** Nothing of an awaited funding exists yet, and its inputs are worth what it
      gives and returns. */
  lemma AwaitedIsNew(s: State, txid: Txid, c: ContractId)
    requires Inv(s) && txid in s.fundings
    ensures forall p :: p in s.unspent ==> p.txid != txid
    ensures forall o :: o in s.history ==> s.history[o].seal.txid != txid
    ensures var f := s.fundings[txid];
            Total(s.history, On(s.history, c, f.inputs + f.fees)) ==
            (if f.contract == Some(c) then f.amount + f.change else 0)
            && (f.contract == None ==> f.amount == f.change == 0)
  {
    hide ListOk, HoldersOk, ClosingsOk, BooksOk;
    assert FundingOk(s, txid, s.fundings[txid]);
    FundingSpends(s, txid, c);
  }

  /** The wallet's part of a funding's record is the change, when it arrives. */
  lemma ChangeArrives(f: Funding, txid: Txid, o: Opout, changeOpout: Opout, c: ContractId, after: set<Outpoint>)
    requires o != changeOpout && Outpoint(txid, 0) !in after && (Outpoint(txid, 2) in after <==> f.drain)
    requires f.contract == None ==> f.amount == f.change == 0
    ensures var r := FundingRecord(f, txid, o, changeOpout);
            Total(r, On(r, c, after)) == if f.contract == Some(c) && f.drain then f.change else 0
  {
    var r := FundingRecord(f, txid, o, changeOpout);
    if f.contract == Some(c) && f.drain && f.change > 0 {
      assert On(r, c, after) == {changeOpout};
      TotalOne(r, changeOpout);
    } else {
      NoneOn(r, c, after);
    }
  }

  /** Spending the selection, with the change recorded on another outpoint. */
  lemma ChosenMoves(s: State, c: ContractId, amount: nat, change: nat, txid: Txid, drained: Option<nat>, o: Opout,
                    p: Outpoint, d: ContractId)
    requires Inv(s) && txid !in s.txids && o !in s.history
    requires Total(s.history, Chosen(s, c, amount)) == amount + change
    requires change > 0 ==> p in s.unspent && p !in Seals(s.history, Chosen(s, c, amount))
    ensures var t := Settle(s, Seals(s.history, Chosen(s, c, amount)), Drained(txid, drained), {},
                            ChangeRecord(o, c, p, change), {txid});
            Balance(t, d) == Balance(s, d) - (if d == c then amount else 0)
  {
    hide HoldersOk, FundingsOk, ClosingsOk, AmountsOk, BooksOk, Chosen;
    var spent := Seals(s.history, Chosen(s, c, amount));
    ChosenAreHolders(s, c, amount);
    assert spent * s.unspent == spent;
    var t := Settle(s, spent, Drained(txid, drained), {}, ChangeRecord(o, c, p, change), {txid});
    SettleMovesBalance(s, spent, Drained(txid, drained), {}, ChangeRecord(o, c, p, change), {txid}, d);
    ChangeTotal(o, c, p, change, d, t.unspent);
  }

  lemma FreeIsUnspent(s: State)
    requires Inv(s) && HasUncolored(s.utxos)
    ensures Free(s.utxos) in s.unspent
  {}

  lemma SameWalletSameBalance(s: State, t: State, c: ContractId)
    requires s.history == t.history && s.unspent == t.unspent
    ensures Balance(s, c) == Balance(t, c)
  {}

  /** A send that goes through spends the selection and nothing else. */
  lemma DoneSends(s: State, c: ContractId, amount: u64, posted: bool, txid: Txid, drained: Option<nat>, o: Opout)
    requires DoSend(s, c, amount, posted, txid, drained, o).1 == Done
    ensures var t := DoSend(s, c, amount, posted, txid, drained, o).0;
            var change := Total(s.history, Chosen(s, c, amount)) - amount;
            change >= 0 && (change > 0 ==> HasUncolored(s.utxos)) &&
            var p := if change > 0 then Free(s.utxos) else Outpoint(txid, 0);
            var u := Settle(s, Seals(s.history, Chosen(s, c, amount)), Drained(txid, drained), {},
                            ChangeRecord(o, c, p, change), {txid});
            t.history == u.history && t.unspent == u.unspent
  {
    hide Selected, Total, ChangeRecord, FirstUncolored;
    SelectedIsLeastCover(s.history, Held(s, c), amount);
  }

  lemma StoppedSendsNothing(s: State, c: ContractId, amount: u64, posted: bool, txid: Txid, drained: Option<nat>,
                            o: Opout)
    requires DoSend(s, c, amount, posted, txid, drained, o).1 != Done
    ensures var t := DoSend(s, c, amount, posted, txid, drained, o).0; t.history == s.history && t.unspent == s.unspent
  {}

  lemma SendMoves(s: State, c: ContractId, amount: u64, posted: bool, txid: Txid, drained: Option<nat>, o: Opout,
                  d: ContractId)
    requires Inv(s) && txid !in s.txids && o !in s.history
    ensures var result := DoSend(s, c, amount, posted, txid, drained, o);
            Balance(result.0, d) == Balance(s, d) + (if d == c && result.1 == Done then 0 - amount else 0)
  {
    hide Inv, DoSend, Balance;
    if DoSend(s, c, amount, posted, txid, drained, o).1 == Done {
      DoneMoves(s, c, amount, posted, txid, drained, o, d);
    } else {
      StoppedSendsNothing(s, c, amount, posted, txid, drained, o);
      SameWalletSameBalance(s, DoSend(s, c, amount, posted, txid, drained, o).0, d);
    }
  }

  lemma DoneMoves(s: State, c: ContractId, amount: u64, posted: bool, txid: Txid, drained: Option<nat>, o: Opout,
                  d: ContractId)
    requires Inv(s) && txid !in s.txids && o !in s.history && DoSend(s, c, amount, posted, txid, drained, o).1 == Done
    ensures Balance(DoSend(s, c, amount, posted, txid, drained, o).0, d) ==
            Balance(s, d) - (if d == c then amount else 0)
  {
    hide Inv, Selected, Total, DoSend, ChangeRecord;
    DoneSends(s, c, amount, posted, txid, drained, o);
    var change := Total(s.history, Chosen(s, c, amount)) - amount;
    var p := if change > 0 then Free(s.utxos) else Outpoint(txid, 0);
    if change > 0 {
      FreeIsUnspent(s);
      FreeIsNotSpent(s, c, amount);
    }
    ChosenMoves(s, c, amount, change, txid, drained, o, p, d);
    var u := Settle(s, Seals(s.history, Chosen(s, c, amount)), Drained(txid, drained), {},
                    ChangeRecord(o, c, p, change), {txid});
    SameWalletSameBalance(DoSend(s, c, amount, posted, txid, drained, o).0, u, d);
  }

  lemma DeliveryMoves(s: State, o: Opout, a: Allocation, c: ContractId)
    requires o !in s.history && a.seal in s.unspent
    ensures Balance(Settle(s, {}, {}, {}, map[o := a], {}), c) ==
            Balance(s, c) + (if c == a.contract then a.amount else 0)
  {
    SettleMovesBalance(s, {}, {}, {}, map[o := a], {}, c);
    NoneOn(s.history, c, {} * s.unspent);
    OneRecorded(o, a, c, s.unspent);
  }

  lemma IssueMoves(s: State, c: ContractId, o: Opout, amount: u64, valid: bool, d: ContractId)
    requires Inv(s) && o !in s.history
    ensures Balance(DoIssue(s, c, o, amount, valid).0, d) ==
            Balance(s, d) + (if d == c && HasUncolored(s.utxos) && valid then amount else 0)
  {
    if HasUncolored(s.utxos) && valid {
      FreeIsUnspent(s);
      var a := Allocation(c, Free(s.utxos), amount);
      DeliveryMoves(s, o, a, d);
      SameWalletSameBalance(Settle(s, {}, {}, {}, map[o := a], {}), DoIssue(s, c, o, amount, valid).0, d);
    }
  }

  lemma RefreshMoves(s: State, file: Outpoint, delivery: Delivery, d: ContractId)
    requires Inv(s) && file in s.blinded && Receivable(s, delivery)
    ensures Balance(DoRefresh(s, file, delivery).0, d) == Balance(s, d)
              + (if delivery.Accepted? && delivery.consignment.contract == d then delivery.consignment.amount else 0)
  {
    if delivery.Accepted? {
      var c := delivery.consignment;
      var a := Allocation(c.contract, file, c.amount);
      DeliveryMoves(s, c.opout, a, d);
      SameWalletSameBalance(Settle(s, {}, {}, {}, map[c.opout := a], {}), DoRefresh(s, file, delivery).0, d);
    }
  }

  lemma SweepMoves(s: State, o: Opout, valid: bool, txid: Txid, outputs: seq<bool>, swept: Opout, d: ContractId)
    requires Inv(s) && Sweepable(s, o, txid, swept)
    ensures Balance(DoSweep(s, o, valid, txid, outputs, swept).0, d) == Balance(s, d)
              + (if valid && s.history[o].contract == d && Sweep.SealHolds(outputs) then s.history[o].amount else 0)
  {
    hide FundingsOk, AmountsOk, BooksOk;
    if valid {
      var of := s.history[o];
      var to := Outpoint(txid, Sweep.SealVout(outputs));
      var a := Allocation(of.contract, to, of.amount);
      SweptAmount(s, o);
      TxidIsNotLive(s, to);
      var t := Settle(s, {of.seal}, SweptToWallet(txid, outputs), {}, map[swept := a], {txid});
      SettleMovesBalance(s, {of.seal}, SweptToWallet(txid, outputs), {}, map[swept := a], {txid}, d);
      NoneOn(s.history, d, {of.seal} * s.unspent);
      OneRecorded(swept, a, d, t.unspent);
      SameWalletSameBalance(t, DoSweep(s, o, valid, txid, outputs, swept).0, d);
    }
  }

  lemma ChannelMoves(s: State, spent: set<Outpoint>, toLdk: set<Outpoint>, recorded: History, txs: set<Txid>,
                     c: ContractId)
    requires recorded.Keys !! s.history.Keys && spent !! s.unspent
    requires forall o :: o in recorded ==> recorded[o].seal !in s.unspent
    ensures Balance(Settle(s, spent, {}, toLdk, recorded, txs), c) == Balance(s, c)
  {
    SettleMovesBalance(s, spent, {}, toLdk, recorded, txs, c);
    NoneOn(s.history, c, spent * s.unspent);
    NoneOn(recorded, c, s.unspent - spent);
  }

  lemma PeerMoves(s: State, txid: Txid, c: Consignment, d: ContractId)
    requires Inv(s) && txid !in s.txids && Deliverable(s, c)
    ensures Balance(DoPeerFunding(s, txid, c), d) == Balance(s, d)
  {
    var channel := Outpoint(txid, 0);
    TxidIsNotLive(s, channel);
    var r := map[c.opout := Allocation(c.contract, channel, c.amount)];
    ChannelMoves(s, {}, {channel}, r, {txid}, d);
    SameWalletSameBalance(Settle(s, {}, {}, {channel}, r, {txid}), DoPeerFunding(s, txid, c), d);
  }

  lemma CloseMoves(s: State, o: Opout, txid: Txid, bundle: Sweep.Bundle, outs: seq<ClosingOutput>, d: ContractId)
    requires Inv(s) && Closable(s, o, txid, Sweep.Flat(bundle), outs)
    ensures Sweep.SumShares(Sweep.Flat(bundle), Indices(outs)) <= s.history[o].amount
    ensures Balance(DoClose(s, o, txid, bundle, outs), d) == Balance(s, d)
  {
    hide FundingsOk, AmountsOk, BooksOk, ClosingsOk, Shares;
    var assigns, c := Sweep.Flat(bundle), s.history[o].contract;
    var r := Shares(c, txid, assigns, outs);
    Sweep.SharesPartition(assigns, Indices(outs));
    SharesAreSingle(c, txid, assigns, outs);
    forall x | x in r ensures r[x].seal !in s.unspent {
      TxidIsNotLive(s, r[x].seal);
    }
    ChannelMoves(s, {s.history[o].seal}, ClosingOutpoints(txid, outs), r, {txid}, d);
    SameWalletSameBalance(Settle(s, {s.history[o].seal}, {}, ClosingOutpoints(txid, outs), r, {txid}),
                          DoClose(s, o, txid, bundle, outs), d);
  }

  lemma CreateMoves(s: State, txid: Txid, inputs: set<Outpoint>, change: bool, d: ContractId)
    requires Inv(s) && txid !in s.txids && inputs <= s.unspent - Unspendable(s.utxos, None)
    ensures Balance(DoCreateUtxos(s, txid, inputs, change), d) == Balance(s, d)
  {
    var toWallet := Outputs(txid, if change then {0, 1, 2, 3, 4} else {0, 1, 2, 3});
    NothingChosen(s.utxos);
    UnlistedIsEmpty(s, inputs);
    NothingMoves(s, inputs, toWallet, {}, {txid}, d);
    SameWalletSameBalance(Settle(s, inputs, toWallet, {}, map[], {txid}), DoCreateUtxos(s, txid, inputs, change), d);
  }

  lemma FundingReadyMoves(s: State, txid: Txid, coloring: Option<(ContractId, u64)>, fees: set<Outpoint>, drain: bool,
                          wraps: bool, d: ContractId)
    ensures Balance(DoFundingReady(s, txid, coloring, fees, drain, wraps).0, d) == Balance(s, d)
  {}

  /** Every step changes every balance by exactly its effect: a command on one
      contract leaves the others' balances as they were. */
  lemma BalanceFollowsTheStep(s: State, ev: Event, c: ContractId)
    requires Inv(s) && Enabled(s, ev)
    ensures Balance(Next(s, ev).0, c) == Balance(s, c) + Effect(s, ev, c)
  {
    hide Inv, Balance, DoSend, DoIssue, DoRefresh, DoFundingReady, DoFundingSeen, DoPeerFunding, DoClose, DoSweep,
         DoCreateUtxos;
    match ev
    case Deposit(txid, vouts) => DepositMoves(s, txid, vouts, c);
    case CreateUtxos(txid, inputs, change) => CreateMoves(s, txid, inputs, change, c);
    case IssueAsset(d, o, amount, valid) => IssueMoves(s, d, o, amount, valid, c);
    case SendAsset(d, amount, posted, txid, drained, o) => SendMoves(s, d, amount, posted, txid, drained, o, c);
    case ReceiveAsset => SameWalletSameBalance(s, DoReceive(s).0, c);
    case RefreshFile(file, delivery) => RefreshMoves(s, file, delivery, c);
    case FundingReady(txid, coloring, fees, drain, wraps) =>
      FundingReadyMoves(s, txid, coloring, fees, drain, wraps, c);
    case FundingSeen(txid, o, changeOpout) => SeenFundingMoves(s, txid, o, changeOpout, c);
    case PeerFunding(txid, cons) => PeerMoves(s, txid, cons, c);
    case ChannelClosed(o, txid, bundle, outs) => CloseMoves(s, o, txid, bundle, outs, c);
    case SpendableOutput(o, valid, txid, outputs, swept) => SweepMoves(s, o, valid, txid, outputs, swept, c);
  }

  /** The sum of the effects of a run's steps. */
  ghost function RunEffect(s: State, evs: seq<Event>, t: State, c: ContractId): int
    requires Leads(s, evs, t)
    decreases |evs|
  {
    if evs == [] then 0 else Effect(s, evs[0], c) + RunEffect(Next(s, evs[0]).0, evs[1..], t, c)
  }

  /** Over every run the balance read from the stash and the wallet is what the
      steps so far add up to: nothing else ever moves it. */
  lemma {:induction false} BalanceFollowsTheRun(s: State, evs: seq<Event>, t: State, c: ContractId)
    requires Inv(s) && Leads(s, evs, t)
    ensures Balance(t, c) == Balance(s, c) + RunEffect(s, evs, t, c)
    decreases |evs|
  {
    hide Inv, Next, Enabled, Balance, Effect;
    if evs != [] {
      StepKeepsInv(s, evs[0]);
      BalanceFollowsTheStep(s, evs[0], c);
      BalanceFollowsTheRun(Next(s, evs[0]).0, evs[1..], t, c);
    }
  }

  lemma DepositMoves(s: State, txid: Txid, vouts: set<nat>, c: ContractId)
    requires Inv(s) && txid !in s.txids
    ensures Balance(Settle(s, {}, Outputs(txid, vouts), {}, map[], {txid}), c) == Balance(s, c)
  {
    FreshIsUnused(s, txid);
    NothingMoves(s, {}, Outputs(txid, vouts), {}, {txid}, c);
  }

  /** The contract a step is about, if any. */
  ghost function Subject(s: State, ev: Event): Option<ContractId>
    requires Enabled(s, ev)
  {
    match ev
    case IssueAsset(c, _, _, _) => Some(c)
    case SendAsset(c, _, _, _, _, _) => Some(c)
    case RefreshFile(_, delivery) => if delivery.Accepted? then Some(delivery.consignment.contract) else None
    case FundingSeen(txid, _, _) => s.fundings[txid].contract
    case PeerFunding(_, c) => Some(c.contract)
    case ChannelClosed(o, _, _, _) => Some(s.history[o].contract)
    case SpendableOutput(o, _, _, _, _) => Some(s.history[o].contract)
    case _ => None
  }

  /** The allocation is untouched and still in the wallet. */
  ghost predicate Keeps(s: State, t: State, o: Opout) {
    && o in s.history && o in t.history && t.history[o] == s.history[o]
    && s.history[o].seal in s.unspent && s.history[o].seal in t.unspent
  }

  lemma ChosenMissesOthers(s: State, c: ContractId, amount: nat, kept: Opout)
    requires Inv(s) && kept in s.history && s.history[kept].contract != c
    ensures s.history[kept].seal !in Seals(s.history, Chosen(s, c, amount))
  {}

  lemma SendKeepsOthers(s: State, c: ContractId, amount: u64, posted: bool, txid: Txid, drained: Option<nat>, o: Opout,
                        kept: Opout)
    requires Inv(s) && o !in s.history
    requires kept in s.history && s.history[kept].seal in s.unspent && s.history[kept].contract != c
    ensures Keeps(s, DoSend(s, c, amount, posted, txid, drained, o).0, kept)
  {
    hide Inv, DoSend, Selected, FirstUncolored, Seals, On, Total;
    if DoSend(s, c, amount, posted, txid, drained, o).1 == Done {
      DoneSends(s, c, amount, posted, txid, drained, o);
      ChosenMissesOthers(s, c, amount, kept);
    } else {
      StoppedSendsNothing(s, c, amount, posted, txid, drained, o);
    }
  }

  lemma SeenFundingKeepsOthers(s: State, txid: Txid, o: Opout, changeOpout: Opout, kept: Opout)
    requires Inv(s) && txid in s.fundings && o !in s.history && changeOpout !in s.history && o != changeOpout
    requires kept in s.history && s.history[kept].seal in s.unspent
    requires s.fundings[txid].contract != Some(s.history[kept].contract)
    ensures Keeps(s, DoFundingSeen(s, txid, o, changeOpout), kept)
  {
    hide ListOk, HoldersOk, AmountsOk, BooksOk, ClosingsOk;
    assert FundingOk(s, txid, s.fundings[txid]);
  }

  lemma CreateKeepsAll(s: State, txid: Txid, inputs: set<Outpoint>, change: bool, kept: Opout)
    requires Inv(s) && inputs <= s.unspent - Unspendable(s.utxos, None)
    requires kept in s.history && s.history[kept].seal in s.unspent
    ensures Keeps(s, DoCreateUtxos(s, txid, inputs, change), kept)
  {}

  lemma ChannelStepsKeepAll(s: State, ev: Event, kept: Opout)
    requires Inv(s) && Enabled(s, ev) && kept in s.history && s.history[kept].seal in s.unspent
    requires ev.PeerFunding? || ev.ChannelClosed? || ev.SpendableOutput?
    ensures Keeps(s, Next(s, ev).0, kept)
  {
    hide ListOk, FundingsOk, AmountsOk, BooksOk, ClosingsOk, Shares, DoSend, DoIssue, DoRefresh, DoReceive,
         DoFundingReady, DoFundingSeen, DoCreateUtxos;
    if ev.ChannelClosed? {
      SharesAreSingle(s.history[ev.opout].contract, ev.txid, Sweep.Flat(ev.bundle), ev.outs);
    }
  }

  /** Isolation: a step about one contract spends no outpoint that holds another,
      so the other's allocations in the wallet stay exactly as they were. */
  lemma OthersKeepTheirAllocations(s: State, ev: Event, c: ContractId, o: Opout)
    requires Reachable(s) && Enabled(s, ev) && Subject(s, ev) != Some(c) && o in Held(s, c)
    ensures o in Held(Next(s, ev).0, c) && Next(s, ev).0.history[o] == s.history[o]
  {
    hide Reachable, Inv, DoSend, DoFundingSeen, DoCreateUtxos, DoPeerFunding, DoClose, DoSweep, Selected;
    ReachableIsInv(s);
    match ev
    case SendAsset(d, amount, posted, txid, drained, x) => SendKeepsOthers(s, d, amount, posted, txid, drained, x, o);
    case FundingSeen(txid, x, y) => SeenFundingKeepsOthers(s, txid, x, y, o);
    case CreateUtxos(txid, inputs, change) => CreateKeepsAll(s, txid, inputs, change, o);
    case PeerFunding(_, _) => ChannelStepsKeepAll(s, ev, o);
    case ChannelClosed(_, _, _, _) => ChannelStepsKeepAll(s, ev, o);
    case SpendableOutput(_, _, _, _, _) => ChannelStepsKeepAll(s, ev, o);
    case IssueAsset(_, _, _, _) => RecordingKeepsAll(s, ev, o);
    case RefreshFile(_, _) => RecordingKeepsAll(s, ev, o);
    case _ => ListingKeepsAll(s, ev, o);
  }

  /** Over a run none of whose steps is about a contract, the wallet keeps every
      allocation of it. */
  ghost predicate NeverAbout(s: State, evs: seq<Event>, t: State, c: ContractId)
    requires Leads(s, evs, t)
    decreases |evs|
  {
    evs == [] || (Subject(s, evs[0]) != Some(c) && NeverAbout(Next(s, evs[0]).0, evs[1..], t, c))
  }

  lemma {:induction false} OthersKeepOverRuns(s: State, evs: seq<Event>, t: State, c: ContractId, o: Opout)
    requires Reachable(s) && Leads(s, evs, t) && NeverAbout(s, evs, t, c) && o in Held(s, c)
    ensures o in Held(t, c) && t.history[o] == s.history[o]
    decreases |evs|
  {
    hide Reachable, Next, Enabled, Subject, Held;
    if evs != [] {
      OthersKeepTheirAllocations(s, evs[0], c, o);
      StepReaches(s, evs[0]);
      OthersKeepOverRuns(Next(s, evs[0]).0, evs[1..], t, c, o);
    }
  }

  lemma RecordingKeepsAll(s: State, ev: Event, kept: Opout)
    requires Enabled(s, ev) && kept in s.history && s.history[kept].seal in s.unspent
    requires ev.IssueAsset? || ev.RefreshFile?
    ensures Keeps(s, Next(s, ev).0, kept)
  {
    hide DoSend, DoReceive, DoFundingReady, DoFundingSeen, DoPeerFunding, DoClose, DoSweep, DoCreateUtxos,
         ColorFree, FirstUncolored;
  }

  lemma ListingKeepsAll(s: State, ev: Event, kept: Opout)
    requires Enabled(s, ev) && kept in s.history && s.history[kept].seal in s.unspent
    requires ev.Deposit? || ev.ReceiveAsset? || ev.FundingReady?
    ensures Keeps(s, Next(s, ev).0, kept)
  {
    hide Enabled, Selected, Total, ColorFree, FirstUncolored;
  }
}
