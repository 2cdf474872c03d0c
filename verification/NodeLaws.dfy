/** What each step does to every part of the state: the wallet, the list, the
    files, the recorded allocations and the channels. */
module NodeLaws {
  import opened Prelude
  import opened Ledger
  import opened UtxoList
  import opened NodeState
  import opened NodeInvariant
  import opened NodeSteps
  import opened NodeChannelSteps
  import opened NodeRuns
  import opened NodeEffects
  import opened NodeLosses
  import Sweep

  // ---- Sending and selecting

  /** The allocations a selection takes: those that the ones in front of them do
      not cover. */
  ghost predicate Takes(s: State, c: ContractId, amount: nat, o: Opout) {
    o in Held(s, c) && Total(s.history, Before(Held(s, c), o)) < amount
  }

  lemma ChosenExactly(s: State, c: ContractId, amount: nat)
    ensures forall o :: o in Chosen(s, c, amount) <==> Takes(s, c, amount, o)
  {
    forall o ensures o in Chosen(s, c, amount) <==> Takes(s, c, amount, o) {
      TakenExactly(s.history, Held(s, c), amount, o);
    }
  }

  /** Some run of keys is worth the amount to the unit. */
  ghost predicate Exact(s: State, c: ContractId, amount: nat) {
    exists k :: k in Held(s, c) && Total(s.history, UpTo(Held(s, c), k)) == amount
  }

  /** A known contract's amount is affordable but leaves change. */
  ghost predicate LeavesChange(s: State, c: ContractId, amount: nat) {
    c in s.supply && 0 < amount <= Balance(s, c) && !Exact(s, c, amount)
  }

  lemma ChangeExactly(s: State, c: ContractId, amount: nat)
    ensures LeavesChange(s, c, amount) ==> c in s.supply && amount <= Balance(s, c)
    ensures c in s.supply && amount <= Balance(s, c) ==>
              (Total(s.history, Chosen(s, c, amount)) > amount <==> LeavesChange(s, c, amount))
              && (Chosen(s, c, amount) == {} <==> amount == 0)
    ensures Total(s.history, Chosen(s, c, amount)) >= amount <==> amount <= Balance(s, c)
  {
    SelectedIsLeastCover(s.history, Held(s, c), amount);
    if c in s.supply && 0 < amount <= Balance(s, c) {
      ExactPrefix(s.history, Held(s, c), amount);
    }
  }

  /** A send in terms of its selection. */
  lemma SendChanges(s: State, c: ContractId, amount: u64, posted: bool, txid: Txid, drained: Option<nat>, o: Opout)
    ensures var (t, outcome) := DoSend(s, c, amount, posted, txid, drained, o);
            var taken := Chosen(s, c, amount);
            var spent := Seals(s.history, taken);
            var change := Total(s.history, taken) - amount;
            && t == s.(utxos := t.utxos, unspent := t.unspent, ldk := t.ldk, history := t.history,
                       outside := t.outside, txids := t.txids)
            && (t.utxos == if LeavesChange(s, c, amount) && HasUncolored(s.utxos) then ColorFree(s.utxos) else s.utxos)
            && (if outcome == Done
                then t.unspent == s.unspent - spent + Drained(txid, drained) && t.ldk == s.ldk - spent
                     && t.outside == Credit(s.outside, c, amount)
                     && (LeavesChange(s, c, amount) ==> HasUncolored(s.utxos))
                     && c in s.supply && amount <= Balance(s, c)
                     && t.history == s.history + (if LeavesChange(s, c, amount)
                                                  then map[o := Allocation(c, Free(s.utxos), change)] else map[])
                else t.unspent == s.unspent && t.ldk == s.ldk && t.outside == s.outside && t.history == s.history)
  {
    hide Selected, Total, Seals, ColorFree, FirstUncolored, Exact, LeavesChange;
    ChangeExactly(s, c, amount);
  }

  /** The same for building a funding. */
  lemma ReadyChanges(s: State, txid: Txid, coloring: Option<(ContractId, u64)>, fees: set<Outpoint>, drain: bool,
                     wraps: bool)
    ensures var (t, outcome) := DoFundingReady(s, txid, coloring, fees, drain, wraps);
            && t == s.(utxos := t.utxos, fundings := t.fundings, txids := t.txids)
            && (t.utxos == if Lists(s, FundingReady(txid, coloring, fees, drain, wraps), Outpoint(txid, 2))
                           then s.utxos + [RgbUtxo(Outpoint(txid, 2), true)] else s.utxos)
            && (if outcome == Done then txid in t.fundings && t.fundings == s.fundings[txid := t.fundings[txid]]
                else t.fundings == s.fundings)
            && (outcome == Done ==>
                  var f := t.fundings[txid];
                  && f.inputs == Forced(s, coloring) && f.fees == fees && f.drain == drain
                  && (match coloring
                      case None => f.contract == None && f.amount == f.change == 0 && f.spends == {}
                      case Some((c, amount)) =>
                        f.contract == Some(c) && f.amount == amount && f.spends == Chosen(s, c, amount)
                        && f.change == Total(s.history, Chosen(s, c, amount)) - amount))
  {
    hide Selected, Total, Seals, Exact, LeavesChange;
    if coloring.Some? {
      ChangeExactly(s, coloring.value.0, coloring.value.1);
    }
  }

  // ---- The list

  /** The entry whose flag a step sets. */
  ghost predicate Colours(s: State, ev: Event, p: Outpoint) {
    HasUncolored(s.utxos) && p == Free(s.utxos)
    && (ev.IssueAsset? || ev.ReceiveAsset? || (ev.SendAsset? && LeavesChange(s, ev.contract, ev.amount)))
  }

  /** A coloured entry a step adds: for a funding's change, real or wrapped, and
      for a sweep. */
  ghost predicate Lists(s: State, ev: Event, p: Outpoint) {
    match ev
    case FundingReady(txid, coloring, _, _, wraps) =>
      p == Outpoint(txid, 2) && coloring.Some? &&
      var (c, amount) := coloring.value;
      LeavesChange(s, c, amount) || (c in s.supply && amount > Balance(s, c) && wraps)
    case SpendableOutput(_, valid, txid, outputs, _) => valid && p == Outpoint(txid, Sweep.SealVout(outputs))
    case _ => false
  }

  /** An uncoloured entry a step adds. */
  predicate Offers(ev: Event, p: Outpoint) {
    ev.CreateUtxos? && p.txid == ev.txid && p.vout < UTXO_NUM
  }

  lemma ColouringFollows(s: State, ev: Event, p: Outpoint)
    requires Distinct(s.utxos) && Enabled(s, ev) && (ev.IssueAsset? || ev.ReceiveAsset? || ev.SendAsset?)
    ensures var t := Next(s, ev).0;
            (RgbUtxo(p, true) in t.utxos <==> RgbUtxo(p, true) in s.utxos || Colours(s, ev, p))
            && (RgbUtxo(p, false) in t.utxos <==> RgbUtxo(p, false) in s.utxos && !Colours(s, ev, p))
  {
    hide Enabled, DoSend, ColorFree, FirstUncolored, LeavesChange;
    if ev.SendAsset? {
      SendChanges(s, ev.contract, ev.amount, ev.posted, ev.txid, ev.drained, ev.opout);
    }
    if HasUncolored(s.utxos) {
      ColorFreeChanges(s.utxos);
    }
  }

  lemma PushingFollows(s: State, ev: Event, p: Outpoint)
    requires Enabled(s, ev) && (ev.CreateUtxos? || ev.FundingReady? || ev.SpendableOutput?)
    ensures var t := Next(s, ev).0;
            (RgbUtxo(p, true) in t.utxos <==> RgbUtxo(p, true) in s.utxos || Lists(s, ev, p))
            && (RgbUtxo(p, false) in t.utxos <==> RgbUtxo(p, false) in s.utxos || Offers(ev, p))
  {
    hide Enabled, DoFundingReady, LeavesChange;
    if ev.FundingReady? {
      ReadyChanges(s, ev.txid, ev.coloring, ev.fees, ev.drain, ev.wraps);
    } else if ev.CreateUtxos? && Offers(ev, p) {
      assert NewUtxos(ev.txid, UTXO_NUM)[p.vout] == RgbUtxo(p, false);
    }
  }

  /** In every reachable state, each entry is coloured after a step if and only if
      it was, or the step sets its flag or adds it so; and uncoloured if and only
      if it was and its flag is not set, or it is new. */
  lemma ListFollowsTheStep(s: State, ev: Event, p: Outpoint)
    requires Reachable(s) && Enabled(s, ev)
    ensures var t := Next(s, ev).0;
            && (RgbUtxo(p, true) in t.utxos <==> RgbUtxo(p, true) in s.utxos || Colours(s, ev, p) || Lists(s, ev, p))
            && (RgbUtxo(p, false) in t.utxos <==> (RgbUtxo(p, false) in s.utxos && !Colours(s, ev, p)) || Offers(ev, p))
  {
    hide Enabled, Reachable, Inv, DoSend, DoFundingReady, DoIssue, DoReceive, DoSweep, DoCreateUtxos, LeavesChange,
         HasUncolored;
    ReachableIsInv(s);
    InvIsDistinct(s);
    if ev.IssueAsset? || ev.ReceiveAsset? || ev.SendAsset? {
      ColouringFollows(s, ev, p);
    } else if ev.CreateUtxos? || ev.FundingReady? || ev.SpendableOutput? {
      PushingFollows(s, ev, p);
    }
  }

  // ---- The files of handed-out outpoints

  predicate Delivers(ev: Event, p: Outpoint) {
    ev.RefreshFile? && ev.file == p && ev.delivery.Accepted?
  }

  predicate HandsOut(s: State, ev: Event, p: Outpoint) {
    ev.ReceiveAsset? && HasUncolored(s.utxos) && p == Free(s.utxos)
  }

  lemma OthersKeepFiles(s: State, ev: Event)
    requires Enabled(s, ev) && !ev.ReceiveAsset? && !ev.RefreshFile? && !ev.SendAsset? && !ev.FundingReady?
    ensures Next(s, ev).0.blinded == s.blinded
  {
    hide Enabled, DoReceive, DoSend, DoRefresh, DoFundingReady, ColorFree, FirstUncolored, Shares, NewUtxos;
  }

  /** Each file stays until its transfer is accepted, and is there only for an
      outpoint that was handed out. */
  lemma FilesFollowTheStep(s: State, ev: Event, p: Outpoint)
    requires Enabled(s, ev)
    ensures p in Next(s, ev).0.blinded <==> (p in s.blinded && !Delivers(ev, p)) || HandsOut(s, ev, p)
  {
    hide Enabled, DoSend, DoFundingReady, DoIssue, DoFundingSeen, DoPeerFunding, DoClose, DoSweep, DoCreateUtxos,
         ColorFree, FirstUncolored;
    if ev.SendAsset? {
      SendChanges(s, ev.contract, ev.amount, ev.posted, ev.txid, ev.drained, ev.opout);
    } else if ev.FundingReady? {
      ReadyChanges(s, ev.txid, ev.coloring, ev.fees, ev.drain, ev.wraps);
    } else if !ev.ReceiveAsset? && !ev.RefreshFile? {
      OthersKeepFiles(s, ev);
    }
  }

  /** An outpoint is handed out at most once: what is coloured and not awaited
      never will be. */
  lemma {:induction false} NeverHandedOutAgain(s: State, evs: seq<Event>, t: State, p: Outpoint)
    requires Inv(s) && Leads(s, evs, t) && RgbUtxo(p, true) in s.utxos && p !in s.blinded
    ensures p !in t.blinded
    decreases |evs|
  {
    hide Inv, Enabled, Next;
    if evs != [] {
      InvIsDistinct(s);
      FilesFollowTheStep(s, evs[0], p);
      FreeIsUncoloured(s);
      StepKeepsInv(s, evs[0]);
      StaysColoured(s, evs[0], p);
      NeverHandedOutAgain(Next(s, evs[0]).0, evs[1..], t, p);
    }
  }

  lemma FreeIsUncoloured(s: State)
    requires Distinct(s.utxos)
    ensures HasUncolored(s.utxos) ==> RgbUtxo(Free(s.utxos), true) !in s.utxos
  {
    if HasUncolored(s.utxos) {
      ColorFreeChanges(s.utxos);
    }
  }

  lemma StaysColoured(s: State, ev: Event, p: Outpoint)
    requires Distinct(s.utxos) && Enabled(s, ev) && RgbUtxo(p, true) in s.utxos
    ensures RgbUtxo(p, true) in Next(s, ev).0.utxos
  {
    hide Enabled, Next;
    StepExtends(s, ev);
    var i :| 0 <= i < |s.utxos| && s.utxos[i] == RgbUtxo(p, true);
    assert Next(s, ev).0.utxos[i] == RgbUtxo(p, true);
  }

  /** Over every run, a handed-out outpoint is still awaited if and only if no
      transfer to it was accepted, and the accepted one left exactly its
      consigned allocation there, for good. */
  lemma {:induction false} AwaitedUntilDelivered(s: State, evs: seq<Event>, t: State, p: Outpoint)
    requires Inv(s) && Leads(s, evs, t) && p in s.blinded
    ensures p in t.blinded <==> forall ev :: ev in evs ==> !Delivers(ev, p)
    ensures p !in t.blinded ==>
              exists ev :: ev in evs && Delivers(ev, p)
                           && (var c := ev.delivery.consignment; Holds(t, c.opout, Allocation(c.contract, p, c.amount)))
    decreases |evs|
  {
    hide Inv, Enabled, Next;
    if evs != [] {
      var u := Next(s, evs[0]).0;
      assert evs == [evs[0]] + evs[1..];
      FilesFollowTheStep(s, evs[0], p);
      StepKeepsInv(s, evs[0]);
      if Delivers(evs[0], p) {
        var c := evs[0].delivery.consignment;
        AwaitedIsColoured(s, p);
        InvIsDistinct(s);
        FreeIsUncoloured(s);
        StaysColoured(s, evs[0], p);
        NeverHandedOutAgain(u, evs[1..], t, p);
        HistoryFollowsTheStep(s, evs[0], c.opout, Allocation(c.contract, p, c.amount));
        RecordedForever(u, evs[1..], t, c.opout, Allocation(c.contract, p, c.amount));
      } else {
        AwaitedUntilDelivered(u, evs[1..], t, p);
      }
    }
  }

  lemma AwaitedIsColoured(s: State, p: Outpoint)
    requires Inv(s) && p in s.blinded
    ensures RgbUtxo(p, true) in s.utxos
  {}

  // ---- Recorded allocations

  /** The allocation a step records: all of an issue on the entry it colours, the
      rest of a selection likewise, a transfer on the outpoint handed out for it,
      a channel's part on its funding output and the change on the third, the
      shares of a closing, and a swept share on its seal. */
  ghost predicate Lands(s: State, ev: Event, o: Opout, a: Allocation)
    requires Enabled(s, ev)
  {
    match ev
    case IssueAsset(c, opout, amount, valid) =>
      valid && HasUncolored(s.utxos) && o == opout && a == Allocation(c, Free(s.utxos), amount)
    case SendAsset(c, amount, _, _, _, opout) =>
      Next(s, ev).1 == Done && LeavesChange(s, c, amount) && HasUncolored(s.utxos) && o == opout
      && a.contract == c && a.seal == Free(s.utxos) && a.amount + amount == Total(s.history, Chosen(s, c, amount))
    case RefreshFile(file, delivery) =>
      delivery.Accepted? && o == delivery.consignment.opout
      && a == Allocation(delivery.consignment.contract, file, delivery.consignment.amount)
    case FundingSeen(txid, opout, changeOpout) =>
      var f := s.fundings[txid];
      f.contract == Some(a.contract)
      && ((o == opout && a.seal == Outpoint(txid, 0) && a.amount == f.amount)
          || (o == changeOpout && a.seal == Outpoint(txid, 2) && a.amount == f.change > 0))
    case PeerFunding(txid, c) => o == c.opout && a == Allocation(c.contract, Outpoint(txid, 0), c.amount)
    case ChannelClosed(closed, txid, bundle, outs) =>
      a.contract == s.history[closed].contract && a.seal.txid == txid
      && a.amount == Sweep.ShareAt(Sweep.Flat(bundle), a.seal.vout)
      && exists i :: 0 <= i < |outs| && outs[i] == ClosingOutput(a.seal.vout, o)
    case SpendableOutput(from, valid, txid, outputs, swept) =>
      valid && o == swept && a.contract == s.history[from].contract && a.amount == s.history[from].amount
      && a.seal == Outpoint(txid, Sweep.SealVout(outputs))
    case _ => false
  }

  ghost predicate Holds(s: State, o: Opout, a: Allocation) {
    o in s.history && s.history[o] == a
  }

  lemma IssueRecords(s: State, ev: Event, o: Opout, a: Allocation)
    requires Enabled(s, ev) && ev.IssueAsset?
    ensures Holds(Next(s, ev).0, o, a) <==> Holds(s, o, a) || Lands(s, ev, o, a)
  {
    hide DoSend, DoReceive, DoRefresh, DoFundingReady, DoFundingSeen, DoPeerFunding, DoClose, DoSweep, DoCreateUtxos,
         ColorFree, FirstUncolored, LeavesChange;
  }

  lemma SendRecords(s: State, ev: Event, o: Opout, a: Allocation)
    requires Enabled(s, ev) && ev.SendAsset?
    ensures Holds(Next(s, ev).0, o, a) <==> Holds(s, o, a) || Lands(s, ev, o, a)
  {
    hide DoSend, DoReceive, DoIssue, DoRefresh, DoFundingReady, DoFundingSeen, DoPeerFunding, DoClose, DoSweep,
         DoCreateUtxos, ColorFree, FirstUncolored, LeavesChange, Selected, Total;
    SendChanges(s, ev.contract, ev.amount, ev.posted, ev.txid, ev.drained, ev.opout);
    ChangeExactly(s, ev.contract, ev.amount);
  }

  /** A refresh in terms of what was delivered. */
  lemma RefreshChanges(s: State, file: Outpoint, delivery: Delivery)
    requires Receivable(s, delivery)
    ensures var t := DoRefresh(s, file, delivery).0;
            && t == s.(supply := t.supply, outside := t.outside, burnt := t.burnt, blinded := t.blinded,
                       history := t.history)
            && t.history == s.history + (if delivery.Accepted?
                                         then var c := delivery.consignment;
                                              map[c.opout := Allocation(c.contract, file, c.amount)]
                                         else map[])
  {
    if delivery.Accepted? {
      var t := DoRefresh(s, file, delivery).0;
      assert t.unspent == s.unspent && t.ldk == s.ldk && t.txids == s.txids;
    }
  }

  lemma RefreshRecords(s: State, ev: Event, o: Opout, a: Allocation)
    requires Enabled(s, ev) && ev.RefreshFile?
    ensures Holds(Next(s, ev).0, o, a) <==> Holds(s, o, a) || Lands(s, ev, o, a)
  {
    hide DoSend, DoReceive, DoIssue, DoRefresh, DoFundingReady, DoFundingSeen, DoPeerFunding, DoClose, DoSweep,
         DoCreateUtxos;
    RefreshChanges(s, ev.file, ev.delivery);
  }

  lemma SeenRecords(s: State, ev: Event, o: Opout, a: Allocation)
    requires Enabled(s, ev) && ev.FundingSeen?
    ensures Holds(Next(s, ev).0, o, a) <==> Holds(s, o, a) || Lands(s, ev, o, a)
  {
    hide DoSend, DoReceive, DoIssue, DoRefresh, DoFundingReady, DoPeerFunding, DoClose, DoSweep, DoCreateUtxos;
  }

  lemma PeerRecords(s: State, ev: Event, o: Opout, a: Allocation)
    requires Enabled(s, ev) && ev.PeerFunding?
    ensures Holds(Next(s, ev).0, o, a) <==> Holds(s, o, a) || Lands(s, ev, o, a)
  {
    hide DoSend, DoReceive, DoIssue, DoRefresh, DoFundingReady, DoFundingSeen, DoClose, DoSweep, DoCreateUtxos;
  }

  lemma SweepsRecord(s: State, ev: Event, o: Opout, a: Allocation)
    requires ClosingsOk(s) && Enabled(s, ev) && ev.SpendableOutput?
    ensures Holds(Next(s, ev).0, o, a) <==> Holds(s, o, a) || Lands(s, ev, o, a)
  {
    hide DoSend, DoFundingReady, DoIssue, DoRefresh, DoClose, DoFundingSeen, DoPeerFunding, DoCreateUtxos;
    SweptAmount(s, ev.opout);
  }

  lemma ClosingsRecord(s: State, ev: Event, o: Opout, a: Allocation)
    requires Enabled(s, ev) && ev.ChannelClosed?
    ensures Holds(Next(s, ev).0, o, a) <==> Holds(s, o, a) || Lands(s, ev, o, a)
  {
    hide DoSend, DoFundingReady, DoIssue, DoRefresh, DoSweep, DoFundingSeen, DoPeerFunding, DoCreateUtxos, Shares;
    SharesFit(s.history[ev.opout].contract, ev.txid, Sweep.Flat(ev.bundle), ev.outs);
  }

  lemma OthersRecordNothing(s: State, ev: Event)
    requires Enabled(s, ev) && (ev.Deposit? || ev.CreateUtxos? || ev.ReceiveAsset? || ev.FundingReady?)
    ensures Next(s, ev).0.history == s.history
  {
    hide Enabled, Selected, Total, Seals, ColorFree, FirstUncolored;
  }

  /** In every reachable state, an allocation is on record after a step if and
      only if it was, or the step is the one that records it. */
  lemma HistoryFollowsTheStep(s: State, ev: Event, o: Opout, a: Allocation)
    requires Inv(s) && Enabled(s, ev)
    ensures Holds(Next(s, ev).0, o, a) <==> Holds(s, o, a) || Lands(s, ev, o, a)
  {
    hide Enabled, Next, Lands, Structure, AmountsOk, BooksOk;
    match ev
    case IssueAsset(_, _, _, _) => IssueRecords(s, ev, o, a);
    case SendAsset(_, _, _, _, _, _) => SendRecords(s, ev, o, a);
    case RefreshFile(_, _) => RefreshRecords(s, ev, o, a);
    case FundingSeen(_, _, _) => SeenRecords(s, ev, o, a);
    case PeerFunding(_, _) => PeerRecords(s, ev, o, a);
    case ChannelClosed(_, _, _, _) => ClosingsRecord(s, ev, o, a);
    case SpendableOutput(_, _, _, _, _) => SweepsRecord(s, ev, o, a);
    case _ => OthersLandNothing(s, ev, o, a);
  }

  lemma OthersLandNothing(s: State, ev: Event, o: Opout, a: Allocation)
    requires Enabled(s, ev) && (ev.Deposit? || ev.CreateUtxos? || ev.ReceiveAsset? || ev.FundingReady?)
    ensures Holds(Next(s, ev).0, o, a) <==> Holds(s, o, a) || Lands(s, ev, o, a)
  {
    hide Enabled, Next;
    OthersRecordNothing(s, ev);
  }

  /** Over every run, what is on record stays. */
  lemma {:induction false} RecordedForever(s: State, evs: seq<Event>, t: State, o: Opout, a: Allocation)
    requires Inv(s) && Leads(s, evs, t) && Holds(s, o, a)
    ensures Holds(t, o, a)
    decreases |evs|
  {
    hide Inv, Enabled, Next, Holds, Lands;
    if evs != [] {
      HistoryFollowsTheStep(s, evs[0], o, a);
      StepKeepsInv(s, evs[0]);
      RecordedForever(Next(s, evs[0]).0, evs[1..], t, o, a);
    }
  }

  // ---- The wallet and the channels

  /** An outpoint a step brings to the wallet: outputs it was paid, and what a
      drain or a sweep leaves it. */
  ghost predicate Gains(s: State, ev: Event, p: Outpoint)
    requires Enabled(s, ev)
  {
    match ev
    case Deposit(txid, vouts) => p.txid == txid && p.vout in vouts
    case CreateUtxos(txid, _, change) => p.txid == txid && (p.vout < UTXO_NUM || (change && p.vout == UTXO_NUM))
    case SendAsset(_, _, _, txid, drained, _) => Next(s, ev).1 == Done && p.txid == txid && drained == Some(p.vout)
    case FundingSeen(txid, _, _) => s.fundings[txid].drain && p == Outpoint(txid, 2)
    case SpendableOutput(_, valid, txid, outputs, _) =>
      valid && p.txid == txid && p.vout < |outputs| && !outputs[p.vout]
    case _ => false
  }

  /** An outpoint a step takes out of the wallet. */
  ghost predicate Spends(s: State, ev: Event, p: Outpoint)
    requires Enabled(s, ev)
  {
    match ev
    case CreateUtxos(_, inputs, _) => p in inputs
    case SendAsset(c, amount, _, _, _, _) =>
      Next(s, ev).1 == Done && exists o :: Takes(s, c, amount, o) && s.history[o].seal == p
    case FundingSeen(txid, _, _) => p in s.fundings[txid].inputs + s.fundings[txid].fees
    case _ => false
  }

  /** A channel outpoint a step makes: a funding's first output, or one of ours
      in a closing. */
  predicate Opens(ev: Event, p: Outpoint) {
    match ev
    case FundingSeen(txid, _, _) => p == Outpoint(txid, 0)
    case PeerFunding(txid, _) => p == Outpoint(txid, 0)
    case ChannelClosed(_, txid, _, outs) => p.txid == txid && exists i :: 0 <= i < |outs| && outs[i].index == p.vout
    case _ => false
  }

  /** A channel outpoint a step spends: the channel closed, or the output swept. */
  ghost predicate Ends(s: State, ev: Event, p: Outpoint)
    requires Enabled(s, ev)
  {
    match ev
    case ChannelClosed(o, _, _, _) => p == s.history[o].seal
    case SpendableOutput(o, valid, _, _, _) => valid && p == s.history[o].seal
    case _ => false
  }

  ghost predicate WalletFollows(s: State, ev: Event, p: Outpoint)
    requires Enabled(s, ev)
  {
    && (p in Next(s, ev).0.unspent <==> (p in s.unspent && !Spends(s, ev, p)) || Gains(s, ev, p))
    && (p in Next(s, ev).0.ldk <==> (p in s.ldk && !Ends(s, ev, p)) || Opens(ev, p))
  }

  lemma SendMovesOutpoints(s: State, ev: Event, p: Outpoint)
    requires Inv(s) && Enabled(s, ev) && ev.SendAsset?
    ensures WalletFollows(s, ev, p)
  {
    hide Inv, DoSend, DoReceive, DoIssue, DoRefresh, DoFundingReady, DoFundingSeen, DoPeerFunding, DoClose, DoSweep,
         DoCreateUtxos, ColorFree, FirstUncolored, LeavesChange, Selected, Total, Takes;
    SendChanges(s, ev.contract, ev.amount, ev.posted, ev.txid, ev.drained, ev.opout);
    ChosenExactly(s, ev.contract, ev.amount);
    ChosenAreHolders(s, ev.contract, ev.amount);
    WalletIsNoChannel(s);
  }

  lemma WalletIsNoChannel(s: State)
    requires Inv(s)
    ensures s.unspent !! s.ldk
  {}

  lemma SeenMovesOutpoints(s: State, ev: Event, p: Outpoint)
    requires Inv(s) && Enabled(s, ev) && ev.FundingSeen?
    ensures WalletFollows(s, ev, p)
  {
    hide Inv, DoSend, DoReceive, DoIssue, DoRefresh, DoFundingReady, DoPeerFunding, DoClose, DoSweep, DoCreateUtxos,
         FundingRecord, Credit;
    WalletIsNoChannel(s);
  }

  lemma CloseMovesOutpoints(s: State, ev: Event, p: Outpoint)
    requires Inv(s) && Enabled(s, ev) && ev.ChannelClosed?
    ensures WalletFollows(s, ev, p)
  {
    hide Inv, DoSend, DoReceive, DoIssue, DoRefresh, DoFundingReady, DoFundingSeen, DoPeerFunding, DoSweep,
         DoCreateUtxos, Shares, Indices, Sweep.ShareAt, Sweep.SumShares;
    WalletIsNoChannel(s);
    IndexExactly(ev.outs, p.vout);
  }

  lemma ChannelsMoveOutpoints(s: State, ev: Event, p: Outpoint)
    requires Inv(s) && Enabled(s, ev) && (ev.PeerFunding? || ev.SpendableOutput?)
    ensures WalletFollows(s, ev, p)
  {
    hide Inv, DoSend, DoReceive, DoIssue, DoRefresh, DoFundingReady, DoFundingSeen, DoClose, DoCreateUtxos,
         Sweep.ShareAt, Deliverable;
    WalletIsNoChannel(s);
  }

  lemma IndexExactly(outs: seq<ClosingOutput>, vout: nat)
    ensures vout in Indices(outs) <==> exists i :: 0 <= i < |outs| && outs[i].index == vout
  {
    if i :| 0 <= i < |outs| && outs[i].index == vout {
      IndexOf(outs, i);
    }
  }

  lemma PaymentsMoveOutpoints(s: State, ev: Event, p: Outpoint)
    requires Inv(s) && Enabled(s, ev) && (ev.Deposit? || ev.CreateUtxos?)
    ensures WalletFollows(s, ev, p)
  {
    hide Inv, DoSend, DoReceive, DoIssue, DoRefresh, DoFundingReady, DoFundingSeen, DoPeerFunding, DoClose, DoSweep,
         Unspendable, NewUtxos;
    WalletIsNoChannel(s);
  }

  lemma OthersMoveNothing(s: State, ev: Event, p: Outpoint)
    requires Enabled(s, ev) && (ev.IssueAsset? || ev.ReceiveAsset? || ev.RefreshFile? || ev.FundingReady?)
    ensures WalletFollows(s, ev, p)
  {
    hide DoSend, DoRefresh, DoFundingReady, DoFundingSeen, DoPeerFunding, DoClose, DoSweep, DoCreateUtxos, ColorFree,
         FirstUncolored, Deliverable, Forced, Excluded, Lists;
    if ev.RefreshFile? {
      RefreshChanges(s, ev.file, ev.delivery);
    } else if ev.FundingReady? {
      ReadyChanges(s, ev.txid, ev.coloring, ev.fees, ev.drain, ev.wraps);
    }
  }

  /** In every reachable state, an outpoint is in the wallet after a step if and
      only if it was and is not spent, or the step brings it; and so for the
      outpoints of channels and closings. */
  lemma OutpointsFollowTheStep(s: State, ev: Event, p: Outpoint)
    requires Reachable(s) && Enabled(s, ev)
    ensures p in Next(s, ev).0.unspent <==> (p in s.unspent && !Spends(s, ev, p)) || Gains(s, ev, p)
    ensures p in Next(s, ev).0.ldk <==> (p in s.ldk && !Ends(s, ev, p)) || Opens(ev, p)
  {
    hide Enabled, Next, Inv, Reachable, Spends, Gains, Ends, Opens;
    ReachableIsInv(s);
    match ev
    case SendAsset(_, _, _, _, _, _) => SendMovesOutpoints(s, ev, p);
    case FundingSeen(_, _, _) => SeenMovesOutpoints(s, ev, p);
    case Deposit(_, _) => PaymentsMoveOutpoints(s, ev, p);
    case CreateUtxos(_, _, _) => PaymentsMoveOutpoints(s, ev, p);
    case PeerFunding(_, _) => ChannelsMoveOutpoints(s, ev, p);
    case ChannelClosed(_, _, _, _) => CloseMovesOutpoints(s, ev, p);
    case SpendableOutput(_, _, _, _, _) => ChannelsMoveOutpoints(s, ev, p);
    case _ => OthersMoveNothing(s, ev, p);
  }

  // ---- Fundings and closings on file

  /** A funding a step gives away: plain, or affordable, with its inputs, its fee
      inputs and what is left over. */
  ghost predicate Gives(s: State, ev: Event, txid: Txid, f: Funding) {
    ev.FundingReady? && ev.txid == txid && f.fees == ev.fees && f.drain == ev.drain
    && f.inputs == Forced(s, ev.coloring)
    && (match ev.coloring
        case None => f.contract == None && f.amount == f.change == 0 && f.spends == {}
        case Some((c, amount)) =>
          c in s.supply && amount <= Balance(s, c)
          && f.contract == Some(c) && f.amount == amount && (forall o :: o in f.spends <==> Takes(s, c, amount, o))
          && f.spends <= s.history.Keys && f.amount + f.change == Total(s.history, f.spends))
  }

  ghost predicate Awaits(s: State, txid: Txid, f: Funding) {
    txid in s.fundings && s.fundings[txid] == f
  }

  lemma ReadyGives(s: State, ev: Event, txid: Txid, f: Funding)
    requires Enabled(s, ev) && ev.FundingReady? && ListOk(s)
    ensures Awaits(Next(s, ev).0, txid, f) <==> Awaits(s, txid, f) || Gives(s, ev, txid, f)
  {
    hide DoSend, DoReceive, DoIssue, DoRefresh, DoFundingReady, DoFundingSeen, DoPeerFunding, DoClose, DoSweep,
         DoCreateUtxos, Lists, Excluded, Selected, Total, Takes, Forced, LeavesChange, Distinct;
    ReadyChanges(s, ev.txid, ev.coloring, ev.fees, ev.drain, ev.wraps);
    FundingOutcome(s, ev.txid, ev.coloring, ev.fees, ev.drain, ev.wraps);
    if ev.coloring.Some? {
      ChosenExactly(s, ev.coloring.value.0, ev.coloring.value.1);
      assert (forall o :: o in f.spends <==> Takes(s, ev.coloring.value.0, ev.coloring.value.1, o)) ==>
          f.spends == Chosen(s, ev.coloring.value.0, ev.coloring.value.1);
    }
  }

  lemma OthersGiveNothing(s: State, ev: Event)
    requires Enabled(s, ev) && !ev.FundingReady? && !ev.FundingSeen? && !ev.SendAsset? && !ev.RefreshFile?
    ensures Next(s, ev).0.fundings == s.fundings
  {
    hide Enabled, DoSend, DoRefresh, DoFundingReady, DoFundingSeen, ColorFree, FirstUncolored, Shares, NewUtxos;
  }

  /** In every reachable state, a funding is awaited after a step if and only if
      it was and is not seen now, or the step gives it away. */
  lemma FundingsFollowTheStep(s: State, ev: Event, txid: Txid, f: Funding)
    requires Reachable(s) && Enabled(s, ev)
    ensures Awaits(Next(s, ev).0, txid, f) <==>
            (Awaits(s, txid, f) && !(ev.FundingSeen? && ev.txid == txid)) || Gives(s, ev, txid, f)
  {
    hide Reachable, Enabled, DoSend, DoReceive, DoIssue, DoRefresh, DoFundingReady, DoPeerFunding, DoClose, DoSweep,
         DoCreateUtxos, HoldersOk, FundingsOk, AmountsOk, BooksOk, ClosingsOk, Distinct;
    ReachableIsInv(s);
    if ev.FundingReady? {
      ReadyGives(s, ev, txid, f);
    } else if ev.SendAsset? {
      SendChanges(s, ev.contract, ev.amount, ev.posted, ev.txid, ev.drained, ev.opout);
    } else if ev.RefreshFile? {
      NextRefresh(s, ev);
    } else if !ev.FundingSeen? {
      OthersGiveNothing(s, ev);
    }
  }

  lemma NextRefresh(s: State, ev: Event)
    requires Enabled(s, ev) && ev.RefreshFile?
    ensures Receivable(s, ev.delivery) && Next(s, ev) == DoRefresh(s, ev.file, ev.delivery)
    ensures Next(s, ev).0.fundings == s.fundings && Next(s, ev).0.closings == s.closings
  {
    hide DoRefresh;
    RefreshChanges(s, ev.file, ev.delivery);
  }

  /** A closing is on file after a step if and only if it was, or the step is it. */
  lemma ClosingsFollowTheStep(s: State, ev: Event, txid: Txid, closing: Closing)
    requires Reachable(s) && Enabled(s, ev)
    ensures var t := Next(s, ev).0;
            (txid in t.closings && t.closings[txid] == closing) <==>
            (txid in s.closings && s.closings[txid] == closing)
            || (ev.ChannelClosed? && ev.txid == txid
                && closing == Closing(s.history[ev.opout].contract, ev.bundle))
  {
    hide Reachable, DoSend, DoIssue, DoRefresh, DoFundingReady, DoFundingSeen, DoPeerFunding, DoCreateUtxos, HoldersOk,
         FundingsOk, AmountsOk, BooksOk, ClosingsOk, Shares, Distinct;
    ReachableIsInv(s);
    if ev.ChannelClosed? {
    } else if ev.SendAsset? {
      SendChanges(s, ev.contract, ev.amount, ev.posted, ev.txid, ev.drained, ev.opout);
    } else if ev.RefreshFile? {
      NextRefresh(s, ev);
    } else if ev.FundingReady? {
      ReadyChanges(s, ev.txid, ev.coloring, ev.fees, ev.drain, ev.wraps);
    } else {
      OthersCloseNothing(s, ev);
    }
  }

  lemma OthersCloseNothing(s: State, ev: Event)
    requires Enabled(s, ev) && !ev.ChannelClosed? && !ev.FundingReady? && !ev.SendAsset? && !ev.RefreshFile?
    ensures Next(s, ev).0.closings == s.closings
  {
    hide Enabled, DoSend, DoRefresh, DoFundingReady, DoClose, ColorFree, FirstUncolored, NewUtxos;
  }
}
