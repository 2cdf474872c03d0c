/** Every step keeps the invariant. */
module NodeSteps {
  import opened Prelude
  import opened Ledger
  import opened UtxoList
  import opened NodeState
  import opened NodeInvariant
  import Sweep

  /** One contract's book after a settlement of `s`. */
  ghost predicate BalancedAfter(s: State, spent: set<Outpoint>, live: set<Outpoint>, recorded: History, c: ContractId) {
    && c in s.supply && c in s.outside && c in s.burnt
    && Total(s.history, On(s.history, c, Live(s))) - Total(s.history, On(s.history, c, spent))
       + Total(recorded, On(recorded, c, live)) + s.outside[c] + s.burnt[c] == s.supply[c] <= U64_MAX
  }

  lemma SettleKeepsInv(s: State, spent: set<Outpoint>, toWallet: set<Outpoint>, toLdk: set<Outpoint>,
                       recorded: History, txs: set<Txid>)
    requires Structure(s) && ClosingsOk(s) && AmountsOk(s) && Clean(s, spent, toWallet, toLdk, recorded, txs)
    requires spent <= Live(s)
    requires forall o :: o in s.history ==> s.history[o].contract in s.supply
    requires forall o :: o in recorded ==> recorded[o].contract in s.supply
    requires forall c :: c in s.supply ==>
               BalancedAfter(s, spent, Live(Settle(s, spent, toWallet, toLdk, recorded, txs)), recorded, c)
    ensures Inv(Settle(s, spent, toWallet, toLdk, recorded, txs))
  {
    SettleKeepsStructure(s, spent, toWallet, toLdk, recorded, txs);
    SettleKeepsClosings(s, spent, toWallet, toLdk, recorded, txs);
    SettleKeepsAmounts(s, spent, toWallet, toLdk, recorded, txs);
    SettleKeepsBooks(s, spent, toWallet, toLdk, recorded, txs);
  }

  lemma SettleKeepsBooks(s: State, spent: set<Outpoint>, toWallet: set<Outpoint>, toLdk: set<Outpoint>,
                         recorded: History, txs: set<Txid>)
    requires spent <= Live(s) && Clean(s, spent, toWallet, toLdk, recorded, txs)
    requires forall o :: o in s.history ==> s.history[o].contract in s.supply
    requires forall o :: o in recorded ==> recorded[o].contract in s.supply
    requires forall c :: c in s.supply ==>
               BalancedAfter(s, spent, Live(Settle(s, spent, toWallet, toLdk, recorded, txs)), recorded, c)
    ensures BooksOk(Settle(s, spent, toWallet, toLdk, recorded, txs))
  {
    var t := Settle(s, spent, toWallet, toLdk, recorded, txs);
    forall c | c in t.supply ensures Balanced(t, c) {
      assert BalancedAfter(s, spent, Live(t), recorded, c);
      SettleMovesTotal(s, spent, toWallet, toLdk, recorded, txs, c);
    }
  }

  lemma OneRecorded(o: Opout, a: Allocation, c: ContractId, live: set<Outpoint>)
    ensures Total(map[o := a], On(map[o := a], c, live)) == if a.contract == c && a.seal in live then a.amount else 0
  {
    if a.contract == c && a.seal in live {
      assert On(map[o := a], c, live) == {o};
      TotalOne(map[o := a], o);
    } else {
      assert On(map[o := a], c, live) == {};
    }
  }

  lemma NoneOn(h: History, c: ContractId, outpoints: set<Outpoint>)
    requires forall o :: o in h && h[o].contract == c ==> h[o].seal !in outpoints
    ensures On(h, c, outpoints) == {} && Total(h, On(h, c, outpoints)) == 0
  {}

  // ---- Wallet steps

  /** What coin selection may take from unlisted outpoints holds nothing. */
  lemma UnlistedIsEmpty(s: State, spent: set<Outpoint>)
    requires HoldersOk(s) && spent <= s.unspent && forall p :: p in spent ==> !Listed(s.utxos, p)
    ensures forall o :: o in s.history ==> s.history[o].seal !in spent
    ensures spent !! s.blinded
  {}

  lemma SpendUnlistedKeepsInv(s: State, txid: Txid, inputs: set<Outpoint>, toWallet: set<Outpoint>)
    requires Inv(s) && txid !in s.txids && inputs <= s.unspent
    requires forall p :: p in inputs ==> !Listed(s.utxos, p)
    requires forall p :: p in toWallet ==> p.txid == txid
    ensures Inv(Settle(s, inputs, toWallet, {}, map[], {txid}))
  {
    FreshIsUnused(s, txid);
    UnlistedIsEmpty(s, inputs);
    forall c | c in s.supply
      ensures BalancedAfter(s, inputs, Live(Settle(s, inputs, toWallet, {}, map[], {txid})), map[], c)
    {
      assert Balanced(s, c);
      NoneOn(s.history, c, inputs);
    }
    SettleKeepsInv(s, inputs, toWallet, {}, map[], {txid});
  }

  lemma CreateUtxosKeepsInv(s: State, txid: Txid, inputs: set<Outpoint>, change: bool)
    requires Inv(s) && txid !in s.txids && inputs <= s.unspent - Unspendable(s.utxos, None)
    ensures Inv(DoCreateUtxos(s, txid, inputs, change))
  {
    var toWallet := Outputs(txid, if change then {0, 1, 2, 3, 4} else {0, 1, 2, 3});
    var t := Settle(s, inputs, toWallet, {}, map[], {txid});
    forall p | p in inputs ensures !Listed(s.utxos, p) {
      assert forall b: bool :: RgbUtxo(p, b) in s.utxos ==> p in Unspendable(s.utxos, None);
    }
    SpendUnlistedKeepsInv(s, txid, inputs, toWallet);
    FreshIsUnused(s, txid);
    assert forall i :: 0 <= i < UTXO_NUM ==> Outpoint(txid, i) in toWallet;
    NewUtxosKeepInv(t, txid, UTXO_NUM);
  }

  /** Listing fresh empty outputs of a transaction nobody waits for. */
  lemma NewUtxosKeepFundings(t: State, txid: Txid, n: nat)
    requires FundingsOk(t) && NotAwaited(t, {txid}) && forall p :: Listed(t.utxos, p) ==> p.txid != txid
    ensures FundingsOk(t.(utxos := t.utxos + NewUtxos(txid, n)))
  {
    var u := t.(utxos := t.utxos + NewUtxos(txid, n));
    forall x | x in u.fundings ensures FundingOk(u, x, u.fundings[x]) {
      assert FundingOk(t, x, t.fundings[x]);
    }
  }

  lemma NewUtxosKeepInv(t: State, txid: Txid, n: nat)
    requires Inv(t) && txid in t.txids && NotAwaited(t, {txid})
    requires forall p :: Listed(t.utxos, p) ==> p.txid != txid
    requires forall i :: 0 <= i < n ==> Outpoint(txid, i) in t.unspent
    requires forall o :: o in t.history ==> t.history[o].seal.txid != txid
    ensures Inv(t.(utxos := t.utxos + NewUtxos(txid, n)))
  {
    hide FundingsOk, AmountsOk, ClosingsOk, BooksOk;
    var u := t.(utxos := t.utxos + NewUtxos(txid, n));
    NewUtxosChange(t.utxos, txid, n);
    NewUtxosKeepFundings(t, txid, n);
    forall p | RgbUtxo(p, false) in u.utxos ensures p in u.unspent {
      assert RgbUtxo(p, false) in t.utxos || p == Outpoint(txid, p.vout);
    }
    ListsDoNotMatter(t, u);
  }

  // ---- Recording on a reserved outpoint

  lemma ImportBalances(s: State, c: ContractId, supply: nat, d: ContractId)
    requires BooksOk(s) && supply <= U64_MAX && d in Import(s, c, supply).supply
    ensures Balanced(Import(s, c, supply), d)
  {}

  /** Entering a contract in the books changes no other contract's. */
  lemma ImportKeepsInv(s: State, c: ContractId, supply: nat)
    requires Inv(s) && supply <= U64_MAX
    ensures Inv(Import(s, c, supply))
  {
    hide ListOk, HoldersOk, FundingsOk, ClosingsOk, AmountsOk;
    var t := Import(s, c, supply);
    BooksDoNotMatter(s, t);
    forall d | d in t.supply ensures Balanced(t, d) {
      ImportBalances(s, c, supply, d);
    }
  }

  lemma ReservedIsClean(s: State, o: Opout, a: Allocation)
    requires o !in s.history && Reserved(s, a.seal)
    ensures Clean(s, {}, {}, {}, map[o := a], {})
  {}

  lemma DeliverBalances(s: State, o: Opout, a: Allocation, c: ContractId)
    requires Balanced(s, c) && a.seal in s.unspent && a.contract in s.outside && a.amount <= s.outside[a.contract]
    ensures var t := s.(outside := Debit(s.outside, a.contract, a.amount));
            BalancedAfter(t, {}, Live(s), map[o := a], c)
  {
    NoneOn(s.history, c, {});
    OneRecorded(o, a, c, Live(s));
  }

  /** Recording an allocation that others held, on an outpoint reserved for it. */
  lemma DeliverKeepsInv(s: State, o: Opout, a: Allocation)
    requires Inv(s) && o !in s.history && Reserved(s, a.seal)
    requires a.contract in s.supply && a.contract in s.outside && a.amount <= s.outside[a.contract]
    ensures Inv(Settle(s.(outside := Debit(s.outside, a.contract, a.amount)), {}, {}, {}, map[o := a], {}))
  {
    hide ListOk, HoldersOk, FundingsOk, ClosingsOk, AmountsOk, Clean;
    var t := s.(outside := Debit(s.outside, a.contract, a.amount));
    BooksDoNotMatter(s, t);
    assert Reserved(t, a.seal);
    ReservedIsClean(t, o, a);
    assert Live(Settle(t, {}, {}, {}, map[o := a], {})) == Live(s);
    forall c | c in t.supply ensures BalancedAfter(t, {}, Live(s), map[o := a], c) {
      DeliverBalances(s, o, a, c);
    }
    SettleKeepsInv(t, {}, {}, {}, map[o := a], {});
  }

  lemma RecolorKeepsInv(s: State)
    requires Inv(s) && HasUncolored(s.utxos)
    ensures var t := s.(utxos := ColorFree(s.utxos)); Inv(t) && Reserved(t, Free(s.utxos))
  {
    RecolorKeepsStructure(s);
    ListsDoNotMatter(s, s.(utxos := ColorFree(s.utxos)));
  }

  /** Issuing is entering a contract and delivering all of it to oneself. */
  lemma IssueKeepsInv(s: State, c: ContractId, o: Opout, amount: u64, valid: bool)
    requires Inv(s) && c !in s.supply && o !in s.history
    ensures Inv(DoIssue(s, c, o, amount, valid).0)
  {
    hide Inv;
    if HasUncolored(s.utxos) {
      RecolorKeepsInv(s);
      var t := Import(s.(utxos := ColorFree(s.utxos)), c, amount);
      ImportKeepsInv(s.(utxos := ColorFree(s.utxos)), c, amount);
      DeliverKeepsInv(t, o, Allocation(c, Free(s.utxos), amount));
      assert Debit(t.outside, c, amount) == s.outside[c := 0];
    }
  }

  lemma ReceiveKeepsInv(s: State)
    requires Inv(s)
    ensures Inv(DoReceive(s).0)
  {
    if HasUncolored(s.utxos) {
      RecolorKeepsInv(s);
      var t := s.(utxos := ColorFree(s.utxos));
      var u := DoReceive(s).0;
      forall x | x in u.fundings ensures FundingOk(u, x, u.fundings[x]) {
        assert FundingOk(t, x, t.fundings[x]);
      }
      ListsDoNotMatter(t, u);
    }
  }

  lemma TakeFileKeepsInv(s: State, file: Outpoint)
    requires Inv(s) && file in s.blinded
    ensures var t := s.(blinded := s.blinded - {file}); Inv(t) && Reserved(t, file)
  {
    var t := s.(blinded := s.blinded - {file});
    forall x | x in t.fundings
      ensures FundingOk(t, x, t.fundings[x]) && file !in t.fundings[x].inputs + t.fundings[x].fees
    {
      assert FundingOk(s, x, s.fundings[x]);
    }
    ListsDoNotMatter(s, t);
  }

  lemma RefreshKeepsInv(s: State, file: Outpoint, delivery: Delivery)
    requires Inv(s) && file in s.blinded && Receivable(s, delivery)
    ensures Inv(DoRefresh(s, file, delivery).0)
  {
    hide Inv;
    if delivery.Refused? {
      ImportKeepsInv(s, delivery.contract, delivery.supply);
    } else if delivery.Accepted? {
      var c := delivery.consignment;
      var t := Import(s, c.contract, c.supply);
      ImportKeepsInv(s, c.contract, c.supply);
      TakeFileKeepsInv(t, file);
      DeliverKeepsInv(t.(blinded := t.blinded - {file}), c.opout, Allocation(c.contract, file, c.amount));
    }
  }

  // ---- Sending

  /** Outpoints of the wallet's holders: coloured, not waited for, and worth
      what was selected. */
  lemma ChosenAreHolders(s: State, c: ContractId, amount: nat)
    requires Inv(s)
    ensures var taken := Chosen(s, c, amount);
            var spent := Seals(s.history, taken);
            && spent <= s.unspent
            && (forall p :: p in spent ==>
                  RgbUtxo(p, true) in s.utxos && RgbUtxo(p, false) !in s.utxos && p !in s.blinded)
            && (forall o :: o in s.history && s.history[o].seal in spent ==> o in taken)
            && (forall d :: On(s.history, d, spent) == if d == c then taken else {})
  {
    var taken := Chosen(s, c, amount);
    var spent := Seals(s.history, taken);
    assert SingleOn(s.history, s.unspent);
    AttachedIsSelected(s.history, c, s.unspent, amount);
    forall p | p in spent ensures RgbUtxo(p, true) in s.utxos && RgbUtxo(p, false) !in s.utxos && p !in s.blinded {
      OnlyOneFlag(s.utxos, p);
    }
    forall d | d != c ensures On(s.history, d, spent) == {} {
    }
  }

  lemma ChangeTotal(o: Opout, c: ContractId, p: Outpoint, change: nat, d: ContractId, live: set<Outpoint>)
    ensures var r := ChangeRecord(o, c, p, change);
            Total(r, On(r, d, live)) == if c == d && p in live then change else 0
  {
    if change > 0 {
      OneRecorded(o, Allocation(c, p, change), d, live);
    } else {
      NoneOn(ChangeRecord(o, c, p, change), d, live);
    }
  }

  /** The selection is worth what is given and what comes back. */
  ghost predicate Covers(s: State, c: ContractId, amount: nat, change: nat, p: Outpoint) {
    && c in s.supply
    && Total(s.history, Chosen(s, c, amount)) == amount + change
    && (change > 0 ==> Reserved(s, p) && p !in Seals(s.history, Chosen(s, c, amount)))
  }

  lemma SendIsClean(s: State, c: ContractId, amount: nat, change: nat, txid: Txid, drained: Option<nat>, o: Opout,
                    p: Outpoint)
    requires Inv(s) && txid !in s.txids && o !in s.history && Covers(s, c, amount, change, p)
    ensures Clean(s, Seals(s.history, Chosen(s, c, amount)), Drained(txid, drained), {}, ChangeRecord(o, c, p, change),
                  {txid})
  {
    hide ListOk, HoldersOk, FundingsOk, ClosingsOk, AmountsOk, BooksOk;
    ChosenAreHolders(s, c, amount);
    FreshIsUnused(s, txid);
  }

  lemma SendBalances(s: State, c: ContractId, amount: nat, change: nat, o: Opout, p: Outpoint, live: set<Outpoint>,
                     d: ContractId)
    requires Inv(s) && d in s.supply && Covers(s, c, amount, change, p) && (change > 0 ==> p in live)
    ensures BalancedAfter(s.(outside := Credit(s.outside, c, amount)), Seals(s.history, Chosen(s, c, amount)), live,
                          ChangeRecord(o, c, p, change), d)
  {
    hide ListOk, HoldersOk, FundingsOk, ClosingsOk, AmountsOk;
    ChosenAreHolders(s, c, amount);
    assert Balanced(s, d);
    ChangeTotal(o, c, p, change, d, live);
  }

  lemma CreditKeepsClean(s: State, outside: map<ContractId, nat>, spent: set<Outpoint>, toWallet: set<Outpoint>,
                         toLdk: set<Outpoint>, recorded: History, txs: set<Txid>)
    requires Clean(s, spent, toWallet, toLdk, recorded, txs)
    ensures Clean(s.(outside := outside), spent, toWallet, toLdk, recorded, txs)
  {}

  /** The selection leaves the wallet: part goes to others, the rest comes back
      on the reserved outpoint `p`. */
  lemma SendSettles(s: State, c: ContractId, amount: nat, change: nat, txid: Txid, drained: Option<nat>, o: Opout,
                    p: Outpoint)
    requires Inv(s) && txid !in s.txids && o !in s.history && Covers(s, c, amount, change, p)
    ensures Inv(Settle(s.(outside := Credit(s.outside, c, amount)), Seals(s.history, Chosen(s, c, amount)),
                       Drained(txid, drained), {}, ChangeRecord(o, c, p, change), {txid}))
  {
    hide ListOk, HoldersOk, FundingsOk, ClosingsOk, AmountsOk, Clean, Balanced, BalancedAfter;
    var t := s.(outside := Credit(s.outside, c, amount));
    var spent, gained := Seals(s.history, Chosen(s, c, amount)), Drained(txid, drained);
    var r := ChangeRecord(o, c, p, change);
    ChosenAreHolders(s, c, amount);
    BooksDoNotMatter(s, t);
    SendIsClean(s, c, amount, change, txid, drained, o, p);
    CreditKeepsClean(s, t.outside, spent, gained, {}, r, {txid});
    var live := Live(Settle(t, spent, gained, {}, r, {txid}));
    assert change > 0 ==> p in live;
    forall d | d in t.supply ensures BalancedAfter(t, spent, live, r, d) {
      SendBalances(s, c, amount, change, o, p, live, d);
    }
    SettleKeepsInv(t, spent, gained, {}, r, {txid});
  }

  lemma FreeIsNotSpent(s: State, c: ContractId, amount: nat)
    requires Inv(s) && HasUncolored(s.utxos)
    ensures Free(s.utxos) !in Seals(s.history, Chosen(s, c, amount))
  {}

  lemma SendKeepsInv(s: State, c: ContractId, amount: u64, posted: bool, txid: Txid, drained: Option<nat>, o: Opout)
    requires Inv(s) && txid !in s.txids && o !in s.history
    ensures Inv(DoSend(s, c, amount, posted, txid, drained, o).0)
  {
    hide Inv, Reserved, Selected, Total, Drained, ChangeRecord, Credit, FirstUncolored, Seals, On;
    if c in s.supply && amount <= Balance(s, c) {
      SelectedIsLeastCover(s.history, Held(s, c), amount);
      var change := Total(s.history, Chosen(s, c, amount)) - amount;
      if change == 0 {
        SendSettles(s, c, amount, 0, txid, drained, o, Outpoint(txid, 0));
      } else if HasUncolored(s.utxos) {
        RecolorKeepsInv(s);
        ChangeSettles(s, c, amount, change, txid, drained, o);
      }
    }
  }

  lemma ChangeSettles(s: State, c: ContractId, amount: nat, change: nat, txid: Txid, drained: Option<nat>, o: Opout)
    requires Inv(s) && txid !in s.txids && o !in s.history && HasUncolored(s.utxos)
    requires c in s.supply && Total(s.history, Chosen(s, c, amount)) == amount + change
    ensures var t := s.(utxos := ColorFree(s.utxos));
            Inv(Settle(t.(outside := Credit(t.outside, c, amount)), Seals(s.history, Chosen(s, c, amount)),
                       Drained(txid, drained), {}, ChangeRecord(o, c, Free(s.utxos), change), {txid}))
  {
    hide Inv, Reserved, FirstUncolored;
    RecolorKeepsInv(s);
    FreeIsNotSpent(s, c, amount);
    SendSettles(s.(utxos := ColorFree(s.utxos)), c, amount, change, txid, drained, o, Free(s.utxos));
  }
}
