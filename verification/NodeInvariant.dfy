/** What every step of a node keeps. */
module NodeInvariant {
  import opened Prelude
  import opened Ledger
  import opened UtxoList
  import opened NodeState
  import Sweep

  ghost predicate Empty(h: History, p: Outpoint) {
    forall o :: o in h ==> h[o].seal != p
  }

  /** Listed outpoints are distinct, and nothing names an unknown transaction. */
  ghost predicate ListOk(s: State) {
    && Distinct(s.utxos)
    && (forall p :: Listed(s.utxos, p) ==> p.txid in s.txids)
    && (forall p :: p in s.unspent + s.ldk ==> p.txid in s.txids)
    && (forall o :: o in s.history ==> s.history[o].seal.txid in s.txids)
    && s.fundings.Keys <= s.txids && s.closings.Keys <= s.txids
  }

  /** Every live holder is coloured and holds one allocation; uncoloured entries
      and outpoints handed out for receiving are unspent and hold none. */
  ghost predicate HoldersOk(s: State) {
    && s.unspent !! s.ldk
    && SingleOn(s.history, s.unspent + s.ldk)
    && (forall o :: o in s.history && s.history[o].seal in s.unspent ==> RgbUtxo(s.history[o].seal, true) in s.utxos)
    && (forall p :: RgbUtxo(p, false) in s.utxos ==> p in s.unspent && Empty(s.history, p))
    && (forall p :: p in s.blinded ==> p in s.unspent && RgbUtxo(p, true) in s.utxos && Empty(s.history, p))
  }

  /** A pending funding still knows all that its inputs hold. */
  ghost predicate FundingOk(s: State, txid: Txid, f: Funding) {
    && Unused(s, {txid})
    && (forall p :: p in f.inputs ==> RgbUtxo(p, true) in s.utxos && p !in s.blinded)
    && (forall p :: p in f.fees ==> !Listed(s.utxos, p))
    && (forall p :: p in f.inputs + f.fees ==> p.txid in s.txids && p.txid !in s.fundings)
    && f.spends <= s.history.Keys
    && (forall o :: o in f.spends ==> s.history[o].seal in f.inputs && f.contract == Some(s.history[o].contract))
    && (forall o :: o in s.history && s.history[o].seal in f.inputs + f.fees ==> o in f.spends)
    && (f.change > 0 ==> RgbUtxo(Outpoint(txid, 2), true) in s.utxos)
    && (f.contract.Some? ==> f.contract.value in s.supply)
  }

  /** No live outpoint and no allocation belongs to one of the transactions. */
  ghost predicate Unused(s: State, txs: set<Txid>) {
    && (forall p :: p in s.unspent + s.ldk ==> p.txid !in txs)
    && (forall o :: o in s.history ==> s.history[o].seal.txid !in txs)
    && s.closings.Keys !! txs
  }

  ghost predicate FundingsOk(s: State) {
    forall t :: t in s.fundings ==> FundingOk(s, t, s.fundings[t])
  }

  ghost predicate Structure(s: State) {
    ListOk(s) && HoldersOk(s) && FundingsOk(s)
  }

  /** An unspent, coloured, empty outpoint that nothing else is waiting for. */
  ghost predicate Reserved(s: State, p: Outpoint) {
    && p in s.unspent && RgbUtxo(p, true) in s.utxos && Empty(s.history, p) && p !in s.blinded
    && forall t :: t in s.fundings ==> p !in s.fundings[t].inputs + s.fundings[t].fees
  }

  /** No pending funding is one of the transactions or spends from one. */
  ghost predicate NotAwaited(s: State, txs: set<Txid>) {
    s.fundings.Keys !! txs &&
    forall t :: t in s.fundings ==> forall p :: p in s.fundings[t].inputs + s.fundings[t].fees ==> p.txid !in txs
  }

  /** The conditions under which a settlement keeps the structure. */
  ghost predicate Clean(s: State, spent: set<Outpoint>, toWallet: set<Outpoint>, toLdk: set<Outpoint>,
                        recorded: History, txs: set<Txid>)
  {
    && Unused(s, txs) && NotAwaited(s, txs)
    && (forall p :: p in toWallet + toLdk ==> p.txid in txs) && toWallet !! toLdk
    && (forall p :: p in spent ==> RgbUtxo(p, false) !in s.utxos && p !in s.blinded)
    && recorded.Keys !! s.history.Keys
    && SingleOn(recorded, Seals(recorded, recorded.Keys))
    && (forall o :: o in recorded ==> var p := recorded[o].seal;
          if p.txid in txs then p in toWallet ==> RgbUtxo(p, true) in s.utxos
          else Reserved(s, p) && p !in spent)
  }

  lemma SettleKeepsList(s: State, spent: set<Outpoint>, toWallet: set<Outpoint>, toLdk: set<Outpoint>,
                        recorded: History, txs: set<Txid>)
    requires ListOk(s) && Clean(s, spent, toWallet, toLdk, recorded, txs)
    ensures ListOk(Settle(s, spent, toWallet, toLdk, recorded, txs))
  {}

  lemma SettleKeepsSingle(s: State, spent: set<Outpoint>, toWallet: set<Outpoint>, toLdk: set<Outpoint>,
                          recorded: History, txs: set<Txid>)
    requires SingleOn(s.history, s.unspent + s.ldk) && Clean(s, spent, toWallet, toLdk, recorded, txs)
    ensures var t := Settle(s, spent, toWallet, toLdk, recorded, txs);
            SingleOn(t.history, t.unspent + t.ldk)
  {}

  lemma SettleKeepsHolders(s: State, spent: set<Outpoint>, toWallet: set<Outpoint>, toLdk: set<Outpoint>,
                           recorded: History, txs: set<Txid>)
    requires ListOk(s) && HoldersOk(s) && Clean(s, spent, toWallet, toLdk, recorded, txs)
    ensures HoldersOk(Settle(s, spent, toWallet, toLdk, recorded, txs))
  {
    var t := Settle(s, spent, toWallet, toLdk, recorded, txs);
    SettleKeepsSingle(s, spent, toWallet, toLdk, recorded, txs);
    forall p | RgbUtxo(p, false) in t.utxos ensures Empty(t.history, p) {
      OnlyOneFlag(s.utxos, p);
    }
  }

  lemma SettleKeepsFunding(s: State, spent: set<Outpoint>, toWallet: set<Outpoint>, toLdk: set<Outpoint>,
                           recorded: History, txs: set<Txid>, x: Txid)
    requires Clean(s, spent, toWallet, toLdk, recorded, txs) && x in s.fundings && FundingOk(s, x, s.fundings[x])
    ensures FundingOk(Settle(s, spent, toWallet, toLdk, recorded, txs), x, s.fundings[x])
  {}

  lemma SettleKeepsStructure(s: State, spent: set<Outpoint>, toWallet: set<Outpoint>, toLdk: set<Outpoint>,
                             recorded: History, txs: set<Txid>)
    requires Structure(s) && Clean(s, spent, toWallet, toLdk, recorded, txs)
    ensures Structure(Settle(s, spent, toWallet, toLdk, recorded, txs))
  {
    SettleKeepsList(s, spent, toWallet, toLdk, recorded, txs);
    SettleKeepsHolders(s, spent, toWallet, toLdk, recorded, txs);
    forall x | x in s.fundings ensures FundingOk(Settle(s, spent, toWallet, toLdk, recorded, txs), x, s.fundings[x]) {
      SettleKeepsFunding(s, spent, toWallet, toLdk, recorded, txs, x);
    }
  }

  /** Colouring the free outpoint reserves it. */
  lemma RecolorKeepsStructure(s: State)
    requires Structure(s) && HasUncolored(s.utxos)
    ensures var t := s.(utxos := ColorFree(s.utxos)); Structure(t) && Reserved(t, Free(s.utxos))
  {
    ColorFreeChanges(s.utxos);
    OnlyOneFlag(s.utxos, Free(s.utxos));
    var t := s.(utxos := ColorFree(s.utxos));
    forall x | x in t.fundings ensures FundingOk(t, x, t.fundings[x]) {
      assert FundingOk(s, x, s.fundings[x]);
    }
  }

  lemma FreshIsUnused(s: State, txid: Txid)
    requires Structure(s) && txid !in s.txids
    ensures Unused(s, {txid}) && NotAwaited(s, {txid})
  {}

  /** Pushing a coloured entry of a new transaction. */
  lemma PushKeepsStructure(s: State, p: Outpoint)
    requires Structure(s) && p.txid !in s.txids
    ensures var t := s.(utxos := s.utxos + [RgbUtxo(p, true)], txids := s.txids + {p.txid});
            Structure(t) && Unused(t, {p.txid}) && NotAwaited(t, {p.txid})
  {
    FreshIsUnused(s, p.txid);
    PushChanges(s.utxos, RgbUtxo(p, true));
    var t := s.(utxos := s.utxos + [RgbUtxo(p, true)], txids := s.txids + {p.txid});
    forall x | x in t.fundings ensures FundingOk(t, x, t.fundings[x]) {
      assert FundingOk(s, x, s.fundings[x]);
    }
  }

  // ---- The remaining clauses

  /** A closing output of ours is worth its share of the closing bundle. */
  ghost predicate ClosingsOk(s: State) {
    forall o :: o in s.history && s.history[o].seal in s.ldk && s.history[o].seal.txid in s.closings ==>
      var closing := s.closings[s.history[o].seal.txid];
      s.history[o].contract == closing.contract
      && s.history[o].amount == Sweep.ShareAt(Sweep.Flat(closing.bundle), s.history[o].seal.vout)
  }

  /** A pending funding's inputs are worth what it gives and returns. */
  ghost predicate AmountsOk(s: State) {
    forall t :: t in s.fundings ==>
      var f := s.fundings[t];
      f.spends <= s.history.Keys && Total(s.history, f.spends) == f.amount + f.change
  }

  function Live(s: State): set<Outpoint> {
    s.unspent + s.ldk
  }

  /** The contract's whole supply is in the wallet, in channels, with others, or
      burnt, and fits u64. */
  ghost predicate Balanced(s: State, c: ContractId) {
    && c in s.supply && c in s.outside && c in s.burnt
    && Total(s.history, On(s.history, c, Live(s))) + s.outside[c] + s.burnt[c] == s.supply[c] <= U64_MAX
  }

  ghost predicate BooksOk(s: State) {
    && (forall o :: o in s.history ==> s.history[o].contract in s.supply)
    && (forall c :: c in s.supply ==> Balanced(s, c))
  }

  ghost predicate Inv(s: State) {
    Structure(s) && ClosingsOk(s) && AmountsOk(s) && BooksOk(s)
  }

  /** The books play no part in the structure, as long as no contract is dropped. */
  lemma BooksDoNotMatter(s: State, t: State)
    requires Structure(s) && s.supply.Keys <= t.supply.Keys
    requires t == s.(supply := t.supply, outside := t.outside, burnt := t.burnt)
    ensures Structure(t)
    ensures ClosingsOk(s) ==> ClosingsOk(t)
    ensures AmountsOk(s) ==> AmountsOk(t)
  {
    forall x | x in t.fundings ensures FundingOk(t, x, t.fundings[x]) {
      assert FundingOk(s, x, s.fundings[x]);
    }
  }

  /** The files play no part in the other clauses. */
  lemma ListsDoNotMatter(s: State, t: State)
    requires ClosingsOk(s) && AmountsOk(s) && BooksOk(s)
    requires t == s.(utxos := t.utxos, blinded := t.blinded, txids := t.txids)
    ensures ClosingsOk(t) && AmountsOk(t) && BooksOk(t)
  {}

  lemma SettleKeepsClosings(s: State, spent: set<Outpoint>, toWallet: set<Outpoint>, toLdk: set<Outpoint>,
                            recorded: History, txs: set<Txid>)
    requires HoldersOk(s) && ClosingsOk(s) && Clean(s, spent, toWallet, toLdk, recorded, txs)
    ensures ClosingsOk(Settle(s, spent, toWallet, toLdk, recorded, txs))
  {}

  lemma SettleKeepsAmounts(s: State, spent: set<Outpoint>, toWallet: set<Outpoint>, toLdk: set<Outpoint>,
                           recorded: History, txs: set<Txid>)
    requires AmountsOk(s) && recorded.Keys !! s.history.Keys
    ensures AmountsOk(Settle(s, spent, toWallet, toLdk, recorded, txs))
  {
    var t := Settle(s, spent, toWallet, toLdk, recorded, txs);
    forall x | x in t.fundings
      ensures Total(t.history, s.fundings[x].spends) == s.fundings[x].amount + s.fundings[x].change
    {
      TotalAgrees(s.history, t.history, s.fundings[x].spends);
    }
  }

  /** How a settlement changes a contract's live total. */
  lemma SettleMovesTotal(s: State, spent: set<Outpoint>, toWallet: set<Outpoint>, toLdk: set<Outpoint>,
                         recorded: History, txs: set<Txid>, c: ContractId)
    requires recorded.Keys !! s.history.Keys && spent <= Live(s)
    requires forall o :: o in s.history ==> s.history[o].seal !in toWallet + toLdk
    ensures var t := Settle(s, spent, toWallet, toLdk, recorded, txs);
            Total(t.history, On(t.history, c, Live(t))) ==
            Total(s.history, On(s.history, c, Live(s))) - Total(s.history, On(s.history, c, spent))
            + Total(recorded, On(recorded, c, Live(t)))
  {
    TotalMoves(s.history, recorded, c, Live(s), spent, Live(Settle(s, spent, toWallet, toLdk, recorded, txs)));
  }

  lemma TotalMoves(h: History, recorded: History, c: ContractId, live: set<Outpoint>, spent: set<Outpoint>,
                   after: set<Outpoint>)
    requires recorded.Keys !! h.Keys && spent <= live
    requires forall o :: o in h ==> (h[o].seal in after <==> h[o].seal in live && h[o].seal !in spent)
    ensures Total(h + recorded, On(h + recorded, c, after)) ==
            Total(h, On(h, c, live)) - Total(h, On(h, c, spent)) + Total(recorded, On(recorded, c, after))
  {
    var kept, gained := On(h, c, live) - On(h, c, spent), On(recorded, c, after);
    TotalSplit(h, On(h, c, live), On(h, c, spent));
    assert On(h + recorded, c, after) == kept + gained;
    TotalUnion(h + recorded, kept, gained);
    TotalAgrees(h, h + recorded, kept);
    TotalAgrees(recorded, h + recorded, gained);
  }
}
