/** Steps that fund, close and sweep channels keep the invariant. */
module NodeChannelSteps {
  import opened Prelude
  import opened Ledger
  import opened UtxoList
  import opened NodeState
  import opened NodeInvariant
  import opened NodeSteps
  import Sweep

  // ---- Building a funding transaction

  /** A funding built from the wallet as it is: coloured inputs whose holdings
      are all spent, and unlisted fee inputs. */
  ghost predicate Buildable(s: State, f: Funding) {
    && f.inputs + f.fees <= s.unspent
    && (forall p :: p in f.inputs ==> RgbUtxo(p, true) in s.utxos && p !in s.blinded)
    && (forall p :: p in f.fees ==> !Listed(s.utxos, p))
    && f.spends <= s.history.Keys && Total(s.history, f.spends) == f.amount + f.change
    && (forall o :: o in f.spends ==> s.history[o].seal in f.inputs && f.contract == Some(s.history[o].contract))
    && (forall o :: o in s.history && s.history[o].seal in f.inputs + f.fees ==> o in f.spends)
    && (f.contract.Some? ==> f.contract.value in s.supply)
  }

  lemma AwaitKeepsStructure(s: State, txid: Txid, f: Funding)
    requires Structure(s) && Buildable(s, f) && txid in s.txids && Unused(s, {txid}) && NotAwaited(s, {txid})
    requires f.change > 0 ==> RgbUtxo(Outpoint(txid, 2), true) in s.utxos
    ensures Structure(s.(fundings := s.fundings[txid := f]))
  {
    var t := s.(fundings := s.fundings[txid := f]);
    forall x | x in t.fundings ensures FundingOk(t, x, t.fundings[x]) {
      if x != txid {
        assert FundingOk(s, x, s.fundings[x]);
      } else {
        forall p | p in f.inputs + f.fees ensures p.txid in t.txids && p.txid !in t.fundings {
          assert p.txid in s.fundings ==> FundingOk(s, p.txid, s.fundings[p.txid]);
        }
      }
    }
  }

  lemma NoteTxidKeepsStructure(s: State, txid: Txid)
    requires Structure(s) && txid !in s.txids
    ensures var t := s.(txids := s.txids + {txid}); Structure(t) && Unused(t, {txid}) && NotAwaited(t, {txid})
  {
    FreshIsUnused(s, txid);
    var t := s.(txids := s.txids + {txid});
    forall x | x in t.fundings ensures FundingOk(t, x, t.fundings[x]) {
      assert FundingOk(s, x, s.fundings[x]);
    }
  }

  lemma PushKeepsBuildable(s: State, p: Outpoint, f: Funding)
    requires ListOk(s) && Buildable(s, f) && p.txid !in s.txids
    ensures Buildable(s.(utxos := s.utxos + [RgbUtxo(p, true)], txids := s.txids + {p.txid}), f)
  {}

  lemma ListChangeKeepsStructure(s: State, txid: Txid, f: Funding)
    requires Structure(s) && Buildable(s, f) && txid !in s.txids
    ensures var utxos := if f.change > 0 then s.utxos + [RgbUtxo(Outpoint(txid, 2), true)] else s.utxos;
            var t := s.(utxos := utxos, txids := s.txids + {txid});
            Structure(t) && Buildable(t, f) && Unused(t, {txid}) && NotAwaited(t, {txid})
  {
    hide HoldersOk, FundingsOk, Unused, NotAwaited;
    if f.change > 0 {
      PushKeepsStructure(s, Outpoint(txid, 2));
      PushKeepsBuildable(s, Outpoint(txid, 2), f);
    } else {
      NoteTxidKeepsStructure(s, txid);
    }
  }

  lemma BuildKeepsInv(s: State, txid: Txid, f: Funding)
    requires Inv(s) && Buildable(s, f) && txid !in s.txids
    ensures Inv(s.(utxos := if f.change > 0 then s.utxos + [RgbUtxo(Outpoint(txid, 2), true)] else s.utxos,
                   fundings := s.fundings[txid := f], txids := s.txids + {txid}))
  {
    hide ListOk, HoldersOk, FundingsOk, Unused, NotAwaited;
    var utxos := if f.change > 0 then s.utxos + [RgbUtxo(Outpoint(txid, 2), true)] else s.utxos;
    var t := s.(utxos := utxos, txids := s.txids + {txid});
    ListChangeKeepsStructure(s, txid, f);
    ListsDoNotMatter(s, t);
    AwaitKeepsStructure(t, txid, f);
    var u := t.(fundings := t.fundings[txid := f]);
    forall d | d in u.supply ensures Balanced(u, d) {
      assert Balanced(t, d);
    }
  }

  /** Coin selection that respects the excluded set takes unlisted outpoints. */
  lemma FeesAreUnlisted(s: State, coloring: Option<(ContractId, u64)>, fees: set<Outpoint>)
    requires Inv(s) && fees <= s.unspent - Forced(s, coloring) - Excluded(s, coloring)
    ensures forall p :: p in fees ==> !Listed(s.utxos, p)
  {}

  /** An entry for a transaction that is never sent does no harm. */
  lemma DanglingKeepsInv(s: State, p: Outpoint)
    requires Inv(s) && p.txid !in s.txids
    ensures Inv(s.(utxos := s.utxos + [RgbUtxo(p, true)], txids := s.txids + {p.txid}))
  {
    hide Structure, ClosingsOk, AmountsOk, BooksOk;
    PushKeepsStructure(s, p);
    ListsDoNotMatter(s, s.(utxos := s.utxos + [RgbUtxo(p, true)], txids := s.txids + {p.txid}));
  }

  lemma FundingReadyKeepsInv(s: State, txid: Txid, coloring: Option<(ContractId, u64)>, fees: set<Outpoint>,
                             drain: bool, wraps: bool)
    requires Inv(s) && txid !in s.txids && fees <= s.unspent - Forced(s, coloring) - Excluded(s, coloring)
    ensures Inv(DoFundingReady(s, txid, coloring, fees, drain, wraps).0)
  {
    hide ListOk, FundingsOk, ClosingsOk, AmountsOk, BooksOk;
    FeesAreUnlisted(s, coloring, fees);
    UnlistedIsEmpty(s, fees);
    match coloring
    case None => BuildKeepsInv(s, txid, Funding(None, 0, 0, {}, fees, {}, drain));
    case Some((c, amount)) =>
      ChosenAreHolders(s, c, amount);
      var taken := Chosen(s, c, amount);
      if c in s.supply && Total(s.history, taken) < amount {
        DanglingKeepsInv(s, Outpoint(txid, 2));
      } else if c in s.supply {
        BuildKeepsInv(s, txid, Funding(Some(c), amount, Total(s.history, taken) - amount, Seals(s.history, taken),
                                       fees, taken, drain));
      }
  }

  // ---- Funding transactions seen on chain

  /** The channel gets its amount, and the wallet its change if the output that
      should hold it was made. */
  lemma FundingTotal(f: Funding, txid: Txid, o: Opout, changeOpout: Opout, d: ContractId, live: set<Outpoint>)
    requires o != changeOpout && Outpoint(txid, 0) in live
    requires f.contract == None ==> f.amount == f.change == 0
    ensures var r := FundingRecord(f, txid, o, changeOpout);
            Total(r, On(r, d, live)) ==
            if f.contract == Some(d) then f.amount + (if Outpoint(txid, 2) in live then f.change else 0) else 0
  {
    var r := FundingRecord(f, txid, o, changeOpout);
    if f.contract != Some(d) {
      NoneOn(r, d, live);
    } else if f.change == 0 {
      OneRecorded(o, Allocation(d, Outpoint(txid, 0), f.amount), d, live);
    } else if Outpoint(txid, 2) in live {
      assert On(r, d, live) == {o} + {changeOpout};
      TotalUnion(r, {o}, {changeOpout});
      TotalOne(r, o);
      TotalOne(r, changeOpout);
    } else {
      assert On(r, d, live) == {o};
      TotalOne(r, o);
    }
  }

  lemma ForgetKeepsStructure(s: State, txid: Txid)
    requires Structure(s) && txid in s.fundings
    ensures var t := s.(fundings := s.fundings - {txid}); Structure(t) && Unused(t, {txid}) && NotAwaited(t, {txid})
  {
    var t := s.(fundings := s.fundings - {txid});
    assert FundingOk(s, txid, s.fundings[txid]);
    forall x | x in t.fundings
      ensures FundingOk(t, x, t.fundings[x])
              && forall p :: p in t.fundings[x].inputs + t.fundings[x].fees ==> p.txid != txid
    {
      assert FundingOk(s, x, s.fundings[x]);
    }
  }

  lemma FundingInputsAreFree(s: State, txid: Txid)
    requires Structure(s) && txid in s.fundings
    ensures var f := s.fundings[txid];
            forall p :: p in f.inputs + f.fees ==> RgbUtxo(p, false) !in s.utxos && p !in s.blinded
  {}

  lemma FundingRecordFits(f: Funding, txid: Txid, o: Opout, changeOpout: Opout)
    requires o != changeOpout
    ensures var r := FundingRecord(f, txid, o, changeOpout);
            r.Keys <= {o, changeOpout} && SingleOn(r, Seals(r, r.Keys))
            && forall x :: x in r ==>
                 f.contract == Some(r[x].contract)
                 && (r[x].seal == Outpoint(txid, 0) || (r[x].seal == Outpoint(txid, 2) && f.change > 0))
  {}

  lemma FundingIsClean(s: State, txid: Txid, o: Opout, changeOpout: Opout)
    requires Structure(s) && txid in s.fundings && o !in s.history && changeOpout !in s.history && o != changeOpout
    ensures var f := s.fundings[txid];
            Clean(s.(fundings := s.fundings - {txid}), f.inputs + f.fees,
                  if f.drain then {Outpoint(txid, 2)} else {}, {Outpoint(txid, 0)},
                  FundingRecord(f, txid, o, changeOpout), {txid})
  {
    hide ListOk, HoldersOk, Unused, NotAwaited, FundingRecord, SingleOn;
    ForgetKeepsStructure(s, txid);
    FundingInputsAreFree(s, txid);
    FundingRecordFits(s.fundings[txid], txid, o, changeOpout);
    assert FundingOk(s, txid, s.fundings[txid]);
  }

  /** What the funding's inputs hold is exactly what its transition spends. */
  lemma FundingSpends(s: State, txid: Txid, d: ContractId)
    requires FundingsOk(s) && AmountsOk(s) && txid in s.fundings
    ensures var f := s.fundings[txid];
            Total(s.history, On(s.history, d, f.inputs + f.fees)) ==
            (if f.contract == Some(d) then f.amount + f.change else 0)
            && (f.contract == None ==> f.amount == f.change == 0)
  {
    var f := s.fundings[txid];
    assert FundingOk(s, txid, f);
    if f.contract == Some(d) {
      assert On(s.history, d, f.inputs + f.fees) == f.spends;
    } else {
      NoneOn(s.history, d, f.inputs + f.fees);
    }
    if f.contract == None {
      assert f.spends == {};
    }
  }

  lemma FundingBalances(s: State, txid: Txid, o: Opout, changeOpout: Opout, d: ContractId, live: set<Outpoint>)
    requires FundingsOk(s) && AmountsOk(s) && Balanced(s, d) && txid in s.fundings && o != changeOpout
    requires Outpoint(txid, 0) in live && (Outpoint(txid, 2) in live <==> s.fundings[txid].drain)
    ensures var f := s.fundings[txid];
            var burnt := if f.contract.Some? && f.change > 0 && !f.drain
                         then Credit(s.burnt, f.contract.value, f.change) else s.burnt;
            BalancedAfter(s.(fundings := s.fundings - {txid}, burnt := burnt), f.inputs + f.fees, live,
                          FundingRecord(f, txid, o, changeOpout), d)
  {
    FundingSpends(s, txid, d);
    FundingTotal(s.fundings[txid], txid, o, changeOpout, d, live);
  }

  lemma BooksKeepClean(s: State, t: State, spent: set<Outpoint>, toWallet: set<Outpoint>,
                       toLdk: set<Outpoint>, recorded: History, txs: set<Txid>)
    requires Clean(s, spent, toWallet, toLdk, recorded, txs)
    requires t == s.(supply := t.supply, outside := t.outside, burnt := t.burnt)
    ensures Clean(t, spent, toWallet, toLdk, recorded, txs)
  {}

  lemma ForgetKeepsRest(s: State, txid: Txid)
    requires ClosingsOk(s) && AmountsOk(s)
    ensures var t := s.(fundings := s.fundings - {txid}); ClosingsOk(t) && AmountsOk(t)
  {}

  lemma FundingBookedIsReady(s: State, txid: Txid, o: Opout, changeOpout: Opout)
    requires Inv(s) && txid in s.fundings && o !in s.history && changeOpout !in s.history && o != changeOpout
    ensures var f := s.fundings[txid];
            var t := FundingBooked(s, txid);
            Structure(t) && ClosingsOk(t) && AmountsOk(t)
            && Clean(t, f.inputs + f.fees, if f.drain then {Outpoint(txid, 2)} else {}, {Outpoint(txid, 0)},
                     FundingRecord(f, txid, o, changeOpout), {txid})
            && (forall x :: x in FundingRecord(f, txid, o, changeOpout) ==>
                  FundingRecord(f, txid, o, changeOpout)[x].contract in s.supply)
            && Outpoint(txid, 2) !in Live(s)
  {
    hide ListOk, HoldersOk, ClosingsOk, AmountsOk, BooksOk, Clean, FundingRecord;
    var t := s.(fundings := s.fundings - {txid});
    ForgetKeepsStructure(s, txid);
    ForgetKeepsRest(s, txid);
    BooksDoNotMatter(t, FundingBooked(s, txid));
    FundingIsClean(s, txid, o, changeOpout);
    var f := s.fundings[txid];
    BooksKeepClean(t, FundingBooked(s, txid), f.inputs + f.fees,
                   if f.drain then {Outpoint(txid, 2)} else {}, {Outpoint(txid, 0)},
                   FundingRecord(f, txid, o, changeOpout), {txid});
    FundingRecordFits(f, txid, o, changeOpout);
    assert FundingOk(s, txid, f);
  }

  lemma FundingSeenKeepsInv(s: State, txid: Txid, o: Opout, changeOpout: Opout)
    requires Inv(s) && txid in s.fundings && o !in s.history && changeOpout !in s.history && o != changeOpout
    requires s.fundings[txid].inputs + s.fundings[txid].fees <= s.unspent
    ensures Inv(DoFundingSeen(s, txid, o, changeOpout))
  {
    hide Structure, ClosingsOk, Clean, Balanced, BalancedAfter, FundingRecord, FundingsOk;
    var f := s.fundings[txid];
    var t := FundingBooked(s, txid);
    var spent, gained := f.inputs + f.fees, if f.drain then {Outpoint(txid, 2)} else {};
    var r := FundingRecord(f, txid, o, changeOpout);
    FundingBookedIsReady(s, txid, o, changeOpout);
    var live := Live(Settle(t, spent, gained, {Outpoint(txid, 0)}, r, {txid}));
    assert live == Live(s) - spent + gained + {Outpoint(txid, 0)};
    forall d | d in t.supply ensures BalancedAfter(t, spent, live, r, d) {
      FundingStructure(s);
      FundingBalances(s, txid, o, changeOpout, d, live);
    }
    SettleKeepsInv(t, spent, gained, {Outpoint(txid, 0)}, r, {txid});
  }

  lemma FundingStructure(s: State)
    requires Structure(s)
    ensures FundingsOk(s)
  {}

  // ---- Channels funded by a peer

  lemma PeerBalances(s: State, a: Allocation, o: Opout, live: set<Outpoint>, c: ContractId)
    requires Balanced(s, c) && a.seal in live && a.contract in s.outside && a.amount <= s.outside[a.contract]
    ensures BalancedAfter(s.(outside := Debit(s.outside, a.contract, a.amount)), {}, live, map[o := a], c)
  {
    NoneOn(s.history, c, {});
    OneRecorded(o, a, c, live);
  }

  lemma PeerIsClean(s: State, a: Allocation, o: Opout)
    requires Structure(s) && a.seal.txid !in s.txids && o !in s.history
    ensures Clean(s, {}, {}, {a.seal}, map[o := a], {a.seal.txid})
  {}

  lemma PeerFundingKeepsInv(s: State, txid: Txid, c: Consignment)
    requires Inv(s) && txid !in s.txids && Deliverable(s, c)
    ensures Inv(DoPeerFunding(s, txid, c))
  {
    hide Structure, ClosingsOk, AmountsOk, Balanced, BalancedAfter, Clean;
    var t := Import(s, c.contract, c.supply);
    ImportKeepsInv(s, c.contract, c.supply);
    ImportIsKnown(s, c.contract, c.supply);
    var a := Allocation(c.contract, Outpoint(txid, 0), c.amount);
    var u := t.(outside := Debit(t.outside, c.contract, c.amount));
    BooksDoNotMatter(t, u);
    PeerIsClean(u, a, c.opout);
    var live := Live(Settle(u, {}, {}, {Outpoint(txid, 0)}, map[c.opout := a], {txid}));
    forall d | d in u.supply ensures BalancedAfter(u, {}, live, map[c.opout := a], d) {
      PeerBalances(t, a, c.opout, live, d);
    }
    SettleKeepsInv(u, {}, {}, {Outpoint(txid, 0)}, map[c.opout := a], {txid});
  }

  lemma ImportIsKnown(s: State, c: ContractId, supply: nat)
    requires BooksOk(s)
    ensures var t := Import(s, c, supply);
            c in t.supply && c in t.outside && t.history == s.history && t.txids == s.txids
  {}

  // ---- Closing

  lemma {:induction false} SharesFit(c: ContractId, txid: Txid, assigns: seq<Sweep.Assign>, outs: seq<ClosingOutput>)
    requires forall i, j :: 0 <= i < j < |outs| ==> outs[i].opout != outs[j].opout
    ensures var r := Shares(c, txid, assigns, outs);
            (forall x :: x in r <==> exists i :: 0 <= i < |outs| && outs[i].opout == x)
            && forall i :: 0 <= i < |outs| ==>
                 r[outs[i].opout] == Allocation(c, Outpoint(txid, outs[i].index), Sweep.ShareAt(assigns, outs[i].index))
  {
    if outs != [] {
      SharesFit(c, txid, assigns, outs[..|outs| - 1]);
    }
  }

  lemma {:induction false} SharesTotal(c: ContractId, txid: Txid, assigns: seq<Sweep.Assign>, outs: seq<ClosingOutput>)
    requires forall i, j :: 0 <= i < j < |outs| ==> outs[i].opout != outs[j].opout
    ensures var r := Shares(c, txid, assigns, outs); Total(r, r.Keys) == Sweep.SumShares(assigns, Indices(outs))
  {
    if outs != [] {
      var init, last := outs[..|outs| - 1], outs[|outs| - 1];
      var r, q := Shares(c, txid, assigns, outs), Shares(c, txid, assigns, init);
      SharesTotal(c, txid, assigns, init);
      SharesFit(c, txid, assigns, init);
      TotalRemove(r, r.Keys, last.opout);
      assert r.Keys - {last.opout} == q.Keys;
      TotalAgrees(q, r, q.Keys);
      assert Indices(outs)[..|outs| - 1] == Indices(init);
    }
  }

  lemma IndexOf(outs: seq<ClosingOutput>, i: nat)
    requires i < |outs|
    ensures outs[i].index in Indices(outs) && Indices(outs)[i] == outs[i].index
  {
    assert Indices(outs)[i] == outs[i].index;
  }

  lemma SharesAreSingle(c: ContractId, txid: Txid, assigns: seq<Sweep.Assign>, outs: seq<ClosingOutput>)
    requires Sweep.NoRepeats(Indices(outs))
    requires forall i, j :: 0 <= i < j < |outs| ==> outs[i].opout != outs[j].opout
    ensures var r := Shares(c, txid, assigns, outs);
            SingleOn(r, Seals(r, r.Keys))
            && (forall x :: x in r ==> r[x].contract == c && r[x].seal in ClosingOutpoints(txid, outs)
                                       && r[x].amount == Sweep.ShareAt(assigns, r[x].seal.vout))
            && forall x :: x in r ==> exists i :: 0 <= i < |outs| && outs[i].opout == x
  {
    hide Shares, Sweep.ShareAt;
    var r := Shares(c, txid, assigns, outs);
    SharesFit(c, txid, assigns, outs);
    forall x, y | x in r && y in r && r[x].seal == r[y].seal ensures x == y {
      var i :| 0 <= i < |outs| && outs[i].opout == x;
      var j :| 0 <= j < |outs| && outs[j].opout == y;
      IndexOf(outs, i);
      IndexOf(outs, j);
    }
    forall x | x in r
      ensures r[x].contract == c && r[x].seal in ClosingOutpoints(txid, outs) &&
              r[x].amount == Sweep.ShareAt(assigns, r[x].seal.vout)
    {
      var i :| 0 <= i < |outs| && outs[i].opout == x;
      IndexOf(outs, i);
    }
  }

  lemma ChannelOutpointIsFree(s: State, p: Outpoint)
    requires HoldersOk(s) && p in s.ldk
    ensures RgbUtxo(p, false) !in s.utxos && p !in s.blinded
  {}

  lemma CloseIsClean(s: State, o: Opout, txid: Txid, assigns: seq<Sweep.Assign>, outs: seq<ClosingOutput>)
    requires Structure(s) && Closable(s, o, txid, assigns, outs)
    ensures Clean(s, {s.history[o].seal}, {}, ClosingOutpoints(txid, outs),
                  Shares(s.history[o].contract, txid, assigns, outs), {txid})
  {
    hide ListOk, FundingsOk, Unused, NotAwaited, Shares, SingleOn;
    FreshIsUnused(s, txid);
    ChannelOutpointIsFree(s, s.history[o].seal);
    SharesAreSingle(s.history[o].contract, txid, assigns, outs);
  }

  /** A live outpoint's one allocation is all it holds. */
  lemma OneAtOutpoint(s: State, o: Opout, c: ContractId)
    requires HoldersOk(s) && o in s.history && s.history[o].seal in Live(s)
    ensures Total(s.history, On(s.history, c, {s.history[o].seal})) ==
            if c == s.history[o].contract then s.history[o].amount else 0
  {
    if c == s.history[o].contract {
      assert On(s.history, c, {s.history[o].seal}) == {o};
      TotalOne(s.history, o);
    } else {
      NoneOn(s.history, c, {s.history[o].seal});
    }
  }

  lemma CloseBalances(s: State, o: Opout, txid: Txid, assigns: seq<Sweep.Assign>, outs: seq<ClosingOutput>,
                      live: set<Outpoint>, c: ContractId)
    requires HoldersOk(s) && Balanced(s, c) && Closable(s, o, txid, assigns, outs) &&
             ClosingOutpoints(txid, outs) <= live
    ensures Sweep.SumShares(assigns, Indices(outs)) <= s.history[o].amount
    ensures var of := s.history[o];
            var theirs := of.amount - Sweep.SumShares(assigns, Indices(outs));
            BalancedAfter(s.(outside := Credit(s.outside, of.contract, theirs)), {of.seal}, live,
                          Shares(of.contract, txid, assigns, outs), c)
  {
    hide HoldersOk, SingleOn, Shares, Sweep.ShareAt, Sweep.SumShares, Sweep.NoRepeats;
    var r := Shares(s.history[o].contract, txid, assigns, outs);
    Sweep.SharesPartition(assigns, Indices(outs));
    OneAtOutpoint(s, o, c);
    SharesAreSingle(s.history[o].contract, txid, assigns, outs);
    if c == s.history[o].contract {
      SharesTotal(c, txid, assigns, outs);
      assert On(r, c, live) == r.Keys;
    } else {
      NoneOn(r, c, live);
    }
  }

  lemma CloseSettles(s: State, o: Opout, txid: Txid, assigns: seq<Sweep.Assign>, outs: seq<ClosingOutput>)
    requires Inv(s) && Closable(s, o, txid, assigns, outs)
    ensures Sweep.SumShares(assigns, Indices(outs)) <= s.history[o].amount
    ensures var of := s.history[o];
            Inv(Settle(s.(outside := Credit(s.outside, of.contract,
                                            of.amount - Sweep.SumShares(assigns, Indices(outs)))),
                       {of.seal}, {}, ClosingOutpoints(txid, outs), Shares(of.contract, txid, assigns, outs), {txid}))
  {
    hide ListOk, FundingsOk, ClosingsOk, AmountsOk, Clean, Balanced, BalancedAfter, Shares, HoldersOk;
    Sweep.SharesPartition(assigns, Indices(outs));
    var of := s.history[o];
    var t := s.(outside := Credit(s.outside, of.contract, of.amount - Sweep.SumShares(assigns, Indices(outs))));
    var gained, r := ClosingOutpoints(txid, outs), Shares(of.contract, txid, assigns, outs);
    BooksDoNotMatter(s, t);
    CloseIsClean(s, o, txid, assigns, outs);
    BooksKeepClean(s, t, {of.seal}, {}, gained, r, {txid});
    SharesAreSingle(of.contract, txid, assigns, outs);
    var live := Live(Settle(t, {of.seal}, {}, gained, r, {txid}));
    forall c | c in t.supply ensures BalancedAfter(t, {of.seal}, live, r, c) {
      CloseBalances(s, o, txid, assigns, outs, live, c);
    }
    SettleKeepsInv(t, {of.seal}, {}, gained, r, {txid});
  }

  lemma NoteClosingKeepsStructure(s: State, txid: Txid, closing: Closing)
    requires Structure(s) && txid in s.txids && txid !in s.fundings && txid !in s.closings
    ensures Structure(s.(closings := s.closings[txid := closing]))
  {}

  /** Noting the bundle of a closing whose outputs are worth their shares. */
  lemma NoteClosingKeepsInv(s: State, txid: Txid, closing: Closing)
    requires Inv(s) && txid in s.txids && txid !in s.fundings && txid !in s.closings
    requires forall o :: o in s.history && s.history[o].seal.txid == txid ==>
               s.history[o].contract == closing.contract
               && s.history[o].amount == Sweep.ShareAt(Sweep.Flat(closing.bundle), s.history[o].seal.vout)
    ensures Inv(s.(closings := s.closings[txid := closing]))
  {
    hide ListOk, HoldersOk, FundingsOk;
    var t := s.(closings := s.closings[txid := closing]);
    NoteClosingKeepsStructure(s, txid, closing);
    forall c | c in t.supply ensures Balanced(t, c) {
      assert Balanced(s, c);
    }
  }

  lemma CloseKeepsInv(s: State, o: Opout, txid: Txid, bundle: Sweep.Bundle, outs: seq<ClosingOutput>)
    requires Inv(s) && Closable(s, o, txid, Sweep.Flat(bundle), outs)
    ensures Sweep.SumShares(Sweep.Flat(bundle), Indices(outs)) <= s.history[o].amount
    ensures Inv(DoClose(s, o, txid, bundle, outs))
  {
    hide Inv, Shares;
    var of := s.history[o];
    var assigns := Sweep.Flat(bundle);
    CloseSettles(s, o, txid, assigns, outs);
    SharesAreSingle(of.contract, txid, assigns, outs);
    TxidIsNew(s, txid);
    var t := Settle(s.(outside := Credit(s.outside, of.contract, of.amount - Sweep.SumShares(assigns, Indices(outs)))),
                    {of.seal}, {}, ClosingOutpoints(txid, outs), Shares(of.contract, txid, assigns, outs), {txid});
    NoteClosingKeepsInv(t, txid, Closing(of.contract, bundle));
  }

  lemma TxidIsNew(s: State, txid: Txid)
    requires Inv(s) && txid !in s.txids
    ensures txid !in s.fundings && txid !in s.closings
    ensures forall o :: o in s.history ==> s.history[o].seal.txid != txid
  {}

  // ---- Sweeping

  function SweptToWallet(txid: Txid, outputs: seq<bool>): set<Outpoint> {
    Outputs(txid, set v | 0 <= v < |outputs| && !outputs[v])
  }

  /** The output's single allocation is what the nested sum adds up to. */
  lemma SweptAmount(s: State, o: Opout)
    requires ClosingsOk(s) && o in s.history && s.history[o].seal in s.ldk && s.history[o].seal.txid in s.closings
    ensures var closing := s.closings[s.history[o].seal.txid];
            closing.contract == s.history[o].contract
            && Sweep.ShareAt(Sweep.Flat(closing.bundle), s.history[o].seal.vout) == s.history[o].amount
  {}

  lemma SweepBalances(s: State, o: Opout, swept: Opout, txid: Txid, outputs: seq<bool>, live: set<Outpoint>,
                      c: ContractId)
    requires HoldersOk(s) && Balanced(s, c) && Sweepable(s, o, txid, swept)
    requires Outpoint(txid, Sweep.SealVout(outputs)) in live <==> Sweep.SealHolds(outputs)
    ensures var of := s.history[o];
            var to := Outpoint(txid, Sweep.SealVout(outputs));
            var burnt := if Sweep.SealHolds(outputs) then s.burnt else Credit(s.burnt, of.contract, of.amount);
            BalancedAfter(s.(burnt := burnt), {of.seal}, live, map[swept := Allocation(of.contract, to, of.amount)], c)
  {
    OneAtOutpoint(s, o, c);
    OneRecorded(swept, Allocation(s.history[o].contract, Outpoint(txid, Sweep.SealVout(outputs)), s.history[o].amount),
                c, live);
  }

  lemma SweepIsClean(s: State, o: Opout, txid: Txid, outputs: seq<bool>, swept: Opout)
    requires Structure(s) && Sweepable(s, o, txid, swept)
    ensures var to := Outpoint(txid, Sweep.SealVout(outputs));
            var t := s.(utxos := s.utxos + [RgbUtxo(to, true)], txids := s.txids + {txid});
            Structure(t)
            && Clean(t, {s.history[o].seal}, SweptToWallet(txid, outputs), {},
                     map[swept := Allocation(s.history[o].contract, to, s.history[o].amount)], {txid})
  {
    hide ListOk, FundingsOk, Unused, NotAwaited, HoldersOk;
    PushKeepsStructure(s, Outpoint(txid, Sweep.SealVout(outputs)));
    var t := s.(utxos := s.utxos + [RgbUtxo(Outpoint(txid, Sweep.SealVout(outputs)), true)], txids := s.txids + {txid});
    ChannelOutpointIsFree(t, s.history[o].seal);
  }

  lemma TxidIsNotLive(s: State, p: Outpoint)
    requires ListOk(s) && p.txid !in s.txids
    ensures p !in Live(s)
  {}

  lemma SweepKeepsInv(s: State, o: Opout, valid: bool, txid: Txid, outputs: seq<bool>, swept: Opout)
    requires Inv(s) && Sweepable(s, o, txid, swept)
    ensures Inv(DoSweep(s, o, valid, txid, outputs, swept).0)
  {
    hide ListOk, FundingsOk, ClosingsOk, AmountsOk, Clean, Balanced, BalancedAfter, HoldersOk;
    if valid {
      var of := s.history[o];
      var to := Outpoint(txid, Sweep.SealVout(outputs));
      var t := s.(utxos := s.utxos + [RgbUtxo(to, true)], txids := s.txids + {txid});
      var u := t.(burnt := if Sweep.SealHolds(outputs) then s.burnt else Credit(s.burnt, of.contract, of.amount));
      var gained, r := SweptToWallet(txid, outputs), map[swept := Allocation(of.contract, to, of.amount)];
      SweptAmount(s, o);
      SweepIsClean(s, o, txid, outputs, swept);
      ListsDoNotMatter(s, t);
      BooksDoNotMatter(t, u);
      BooksKeepClean(t, u, {of.seal}, gained, {}, r, {txid});
      TxidIsNotLive(s, to);
      var live := Live(Settle(u, {of.seal}, gained, {}, r, {txid}));
      assert to in live <==> Sweep.SealHolds(outputs);
      forall c | c in u.supply ensures BalancedAfter(u, {of.seal}, live, r, c) {
        SweepBalances(s, o, swept, txid, outputs, live, c);
        LiveIsEnough(s, u, {of.seal}, live, r, c);
      }
      SettleKeepsInv(u, {of.seal}, gained, {}, r, {txid});
    }
  }

  lemma LiveIsEnough(s: State, u: State, spent: set<Outpoint>, live: set<Outpoint>, recorded: History, c: ContractId)
    requires BalancedAfter(s.(burnt := u.burnt), spent, live, recorded, c)
    requires u == s.(utxos := u.utxos, txids := u.txids, burnt := u.burnt)
    ensures BalancedAfter(u, spent, live, recorded, c)
  {}
}
