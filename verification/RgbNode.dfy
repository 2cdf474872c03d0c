/** The node's asset commands and events as they run, updating its files and the
    wallet's view in place (src/cli.rs and src/main.rs). */
module RgbNode {
  import opened Prelude
  import opened Ledger
  import opened UtxoList
  import opened NodeState
  import opened NodeInvariant
  import opened NodeSteps
  import opened NodeChannelSteps
  import opened NodeRuns
  import opened NodeEffects
  import Sweep

  class Node {
    var utxos: Utxos
    var unspent: set<Outpoint>
    var history: History
    var blinded: set<Outpoint>
    var closings: map<Txid, Closing>
    var supply: map<ContractId, nat>
    var fundings: map<Txid, Funding>
    ghost var ldk: set<Outpoint>
    ghost var txids: set<Txid>
    ghost var outside: map<ContractId, nat>
    ghost var burnt: map<ContractId, nat>

    ghost function State(): State
      reads this
    {
      NodeState.State(utxos, unspent, history, blinded, fundings, closings, ldk, txids, supply, outside, burnt)
    }

    ghost predicate Valid()
      reads this
    {
      Inv(State())
    }

    constructor ()
      ensures Valid() && State() == START
    {
      utxos, unspent, history, blinded, closings, supply := [], {}, map[], {}, map[], map[];
      fundings, ldk, txids, outside, burnt := map[], {}, {}, map[], map[];
      new;
      StartIsInv();
    }

    /** Records what a transaction or an accepted transfer does to the wallet,
        the stash and the world around them. */
    method Record(spent: set<Outpoint>, toWallet: set<Outpoint>, ghost toLdk: set<Outpoint>, recorded: History,
                  ghost txs: set<Txid>)
      modifies this`unspent, this`ldk, this`history, this`txids
      ensures State() == Settle(old(State()), spent, toWallet, toLdk, recorded, txs)
    {
      unspent := unspent - spent + toWallet;
      history := history + recorded;
      ldk := ldk - spent + toLdk;
      txids := txids + txs;
    }

    /** Finds the first uncoloured entry and flags it, rewriting the list. */
    method TakeFree() returns (free: Option<Outpoint>)
      requires Distinct(utxos)
      modifies this`utxos
      ensures if HasUncolored(old(utxos))
              then free == Some(Free(old(utxos))) && utxos == ColorFree(old(utxos))
              else free == None && utxos == old(utxos)
    {
      free := GetUtxo(utxos);
      if free.Some? {
        utxos := Color(utxos, free.value);
      }
    }

    method CreateUtxos(txid: Txid, inputs: set<Outpoint>, change: bool)
      requires Valid() && txid !in txids && inputs <= unspent - Unspendable(utxos, None)
      modifies this
      ensures Valid() && State() == DoCreateUtxos(old(State()), txid, inputs, change)
    {
      hide Inv;
      CreateUtxosKeepsInv(State(), txid, inputs, change);
      ghost var before := utxos;
      Record(inputs, Outputs(txid, if change then {0, 1, 2, 3, 4} else {0, 1, 2, 3}), {}, map[], {txid});
      label recorded:
      for i := 0 to UTXO_NUM
        invariant utxos == before + NewUtxos(txid, i)
        invariant State() == old@recorded(State()).(utxos := utxos)
      {
        utxos := utxos + [RgbUtxo(Outpoint(txid, i), false)];
      }
    }

    method IssueAsset(contract: ContractId, opout: Opout, amount: u64, valid: bool) returns (outcome: Outcome)
      requires Valid() && contract !in supply && opout !in history
      modifies this
      ensures Valid() && (State(), outcome) == DoIssue(old(State()), contract, opout, amount, valid)
    {
      hide Inv, ColorFree, Free, HasUncolored, Distinct, Settle;
      IssueKeepsInv(State(), contract, opout, amount, valid);
      InvIsDistinct(State());
      var free := TakeFree();
      if free == None {
        return NoAvailableUtxos;
      }
      if !valid {
        return Aborted;
      }
      IssueContract(contract, opout, free.value, amount);
      return Done;
    }

    /** The whole supply is allocated to the outpoint. */
    method IssueContract(contract: ContractId, opout: Opout, seal: Outpoint, amount: u64)
      modifies this
      ensures State() == Settle(old(State()).(supply := old(supply)[contract := amount],
                                              outside := old(outside)[contract := 0],
                                              burnt := old(burnt)[contract := 0]),
                                {}, {}, {}, map[opout := Allocation(contract, seal, amount)], {})
    {
      supply := supply[contract := amount];
      outside, burnt := outside[contract := 0], burnt[contract := 0];
      Record({}, {}, {}, map[opout := Allocation(contract, seal, amount)], {});
    }

    method ReceiveAsset() returns (outcome: Outcome)
      requires Valid()
      modifies this
      ensures Valid() && (State(), outcome) == DoReceive(old(State()))
    {
      hide Inv, ColorFree, Free, HasUncolored, Distinct;
      ReceiveKeepsInv(State());
      InvIsDistinct(State());
      var free := TakeFree();
      if free == None {
        return NoAvailableUtxos;
      }
      blinded := blinded + {free.value};
      return Done;
    }

    /** Learns of a contract from a consignment. */
    method Learn(contract: ContractId, issued: nat)
      modifies this`supply, this`outside, this`burnt
      ensures State() == Import(old(State()), contract, issued)
    {
      if contract !in supply {
        supply := supply[contract := issued];
        outside, burnt := outside[contract := issued], burnt[contract := 0];
      }
    }

    /** The contract is imported before the transfer is validated. */
    method RefreshFile(file: Outpoint, delivery: Delivery) returns (outcome: Outcome)
      requires Valid() && file in blinded && Receivable(State(), delivery)
      modifies this
      ensures Valid() && (State(), outcome) == DoRefresh(old(State()), file, delivery)
    {
      hide Inv;
      RefreshKeepsInv(State(), file, delivery);
      if delivery.Missing? {
        return Skipped;
      }
      if delivery.Refused? {
        Learn(delivery.contract, delivery.supply);
        return Skipped;
      }
      var c := delivery.consignment;
      Learn(c.contract, c.supply);
      outside := Debit(outside, c.contract, c.amount);
      blinded := blinded - {file};
      Record({}, {}, {}, map[c.opout := Allocation(c.contract, file, c.amount)], {});
      return Done;
    }

    /** The command's loop over the files, given what arrives for each. */
    method Refresh(turns: seq<(Outpoint, Delivery)>, ghost after: NodeState.State)
      requires Valid() && Leads(State(), RefreshTurns(turns), after)
      modifies this
      ensures Valid() && State() == after
    {
      hide Inv, DoRefresh;
      for i := 0 to |turns|
        invariant Valid() && Leads(State(), RefreshTurns(turns[i..]), after)
      {
        var (file, delivery) := turns[i];
        assert RefreshTurns(turns[i..])[1..] == RefreshTurns(turns[i + 1..]);
        var outcome := RefreshFile(file, delivery);
      }
    }

    /** Sums over the wallet's allocations fit u64. */
    lemma BalanceFits(c: ContractId)
      requires Valid() && c in supply
      ensures Total(history, Held(State(), c)) <= U64_MAX
    {
      assert Balanced(State(), c);
      TotalSplit(history, On(history, c, unspent + ldk), Held(State(), c));
    }

    /** So does each live allocation. */
    lemma AllocationFits(o: Opout)
      requires Valid() && o in history && history[o].seal in unspent + ldk
      ensures history[o].amount <= U64_MAX
    {
      assert Balanced(State(), history[o].contract);
      TotalRemove(history, On(history, history[o].contract, unspent + ldk), o);
    }

    /** The selection loop over what the wallet owns of a known contract. */
    method ChooseInputs(contract: ContractId, amount: u64) returns (inputs: seq<Outpoint>, inputAmount: u64)
      requires Valid() && contract in supply
      ensures inputAmount == Total(history, Chosen(State(), contract, amount))
      ensures Members(inputs) == Seals(history, Chosen(State(), contract, amount))
      ensures inputs == [] <==> Chosen(State(), contract, amount) == {}
    {
      hide Inv, Selected, Total;
      BalanceFits(contract);
      var owned := GetAssetOwnedValues(history, contract, unspent);
      inputs, inputAmount := SelectInputs(history, Held(State(), contract), owned, amount);
      NoInputsNothingChosen(State(), contract, amount, inputs);
    }

    /** All the state at the previous outputs, which `send_rgb` puts into the
        transition, is what the selection counted: fee inputs hold nothing. */
    method AttachInputs(contract: ContractId, amount: u64, prevOutputs: seq<Outpoint>, ghost fees: set<Outpoint>,
                        ghost s: NodeState.State)
      returns (attached: set<Opout>)
      requires Inv(s) && s.history == history
      requires fees <= s.unspent - Forced(s, Some((contract, amount))) - Excluded(s, Some((contract, amount)))
      requires Members(prevOutputs) == Forced(s, Some((contract, amount))) + fees
      ensures attached == Chosen(s, contract, amount) == On(history, contract, Members(prevOutputs))
    {
      hide Inv, Selected, On, Seals, Excluded;
      FundingAttaches(s, Some((contract, amount)), fees, contract);
      attached := AttachState(history, contract, prevOutputs);
    }

    /** The checks and the selection of a send: what stops it, or its inputs and
        the change they leave. */
    method PrepareSend(contract: ContractId, amount: u64)
      returns (refusal: Option<Outcome>, inputs: seq<Outpoint>, change: nat)
      requires Valid()
      ensures refusal == if contract !in supply then Some(UnknownContract)
                         else if amount > Balance(State(), contract) then Some(NotEnoughAssets) else None
      ensures refusal == None ==>
                var taken := Chosen(State(), contract, amount);
                Members(inputs) == Seals(history, taken) && Total(history, taken) == amount + change
                && (inputs == [] <==> taken == {})
    {
      hide Inv, Selected, Total, On, Seals;
      if contract !in supply {
        return Some(UnknownContract), [], 0;
      }
      BalanceFits(contract);
      var total := GetRgbTotalAmount(history, contract, unspent);
      if amount > total {
        return Some(NotEnoughAssets), [], 0;
      }
      var inputAmount;
      inputs, inputAmount := ChooseInputs(contract, amount);
      SelectedIsLeastCover(history, Held(State(), contract), amount);
      return None, inputs, inputAmount - amount;
    }

    /** Gives the recipient its amount and takes the change. */
    method Broadcast(contract: ContractId, amount: nat, spent: set<Outpoint>, txid: Txid, drained: Option<nat>,
                     change: History)
      modifies this
      ensures State() == Settle(old(State()).(outside := Credit(old(outside), contract, amount)),
                                spent, Drained(txid, drained), {}, change, {txid})
    {
      outside := Credit(outside, contract, amount);
      Record(spent, Drained(txid, drained), {}, change, {txid});
    }

    /** Builds the change output if it is needed; otherwise any outpoint
        will do, since nothing is recorded on it. */
    method PlaceChange(change: nat, unneeded: Outpoint) returns (to: Option<Outpoint>)
      requires Distinct(utxos)
      modifies this`utxos
      ensures to == if change == 0 then Some(unneeded)
                    else if HasUncolored(old(utxos)) then Some(Free(old(utxos))) else None
      ensures utxos == if change > 0 && to.Some? then ColorFree(old(utxos)) else old(utxos)
    {
      hide Distinct, FirstUncolored;
      if change == 0 {
        return Some(unneeded);
      }
      to := TakeFree();
    }

    method SendAsset(contract: ContractId, amount: u64, posted: bool, txid: Txid, drained: Option<nat>, opout: Opout)
      returns (outcome: Outcome, attached: set<Opout>)
      requires Valid() && txid !in txids && opout !in history
      modifies this
      ensures Valid() && (State(), outcome) == DoSend(old(State()), contract, amount, posted, txid, drained, opout)
      ensures outcome == Done ==>
                attached == On(old(history), contract, old(unspent) - unspent)
                && Total(old(history), attached) == amount + (if opout in history then history[opout].amount else 0)
    {
      hide Inv, Selected, Total, HasUncolored, Free, ColorFree, Distinct, On, Seals, ChangeRecord, Credit, Excluded,
           Settle;
      ghost var s := State();
      SendKeepsInv(s, contract, amount, posted, txid, drained, opout);
      InvIsDistinct(s);
      var refusal, inputs, change := PrepareSend(contract, amount);
      if refusal.Some? {
        return refusal.value, {};
      }
      var to := PlaceChange(change, Outpoint(txid, 0));
      if to == None {
        return NoAvailableUtxos, {};
      }
      if inputs == [] {
        return Aborted, {};
      }
      attached := AttachInputs(contract, amount, inputs, {}, s);
      if !posted {
        return NotPosted, attached;
      }
      Broadcast(contract, amount, Members(inputs), txid, drained, ChangeRecord(opout, contract, to.value, change));
      SentIsAttached(s, contract, amount, posted, txid, drained, opout);
      return Done, attached;
    }

    lemma NoInputsNothingChosen(s: NodeState.State, c: ContractId, amount: nat, inputs: seq<Outpoint>)
      requires Members(inputs) == Seals(s.history, Chosen(s, c, amount))
      ensures inputs == [] <==> Chosen(s, c, amount) == {}
    {
      if o :| o in Chosen(s, c, amount) {
        assert s.history[o].seal in Members(inputs);
      }
      if inputs != [] {
        assert inputs[0] in Members(inputs);
      }
    }

    /** Gives a funding transaction away, with an entry for its change. */
    method Await(txid: Txid, f: Funding)
      modifies this`utxos, this`fundings, this`txids
      ensures State() == old(State()).(utxos := if f.change > 0 then old(utxos) + [RgbUtxo(Outpoint(txid, 2), true)]
                                       else old(utxos),
                                       fundings := old(fundings)[txid := f], txids := old(txids) + {txid})
    {
      if f.change > 0 {
        utxos := utxos + [RgbUtxo(Outpoint(txid, 2), true)];
      }
      fundings := fundings[txid := f];
      txids := txids + {txid};
    }

    /** Building a funding transaction: inputs, exclusions, the state attached to
        its transition and the list's new entry. `fees` is what coin selection
        adds under those exclusions. */
    method FundingGenerationReady(txid: Txid, coloring: Option<(ContractId, u64)>, fees: seq<Outpoint>, drain: bool,
                                  wraps: bool)
      returns (outcome: Outcome, unspendable: seq<Outpoint>, attached: set<Opout>)
      requires Valid() && txid !in txids
      requires Members(fees) <= unspent - Forced(State(), coloring) - Excluded(State(), coloring)
      modifies this
      ensures Valid() && (State(), outcome) == DoFundingReady(old(State()), txid, coloring, Members(fees), drain, wraps)
      ensures outcome == Done ==> Members(unspendable) == Excluded(old(State()), coloring)
      ensures outcome == Done && coloring.Some? ==>
                attached == On(history, coloring.value.0, Forced(old(State()), coloring) + Members(fees))
                && Total(history, attached) == coloring.value.1 + fundings[txid].change
    {
      hide Inv, Selected, Total, Unspendable, On, Seals;
      ghost var s := State();
      FundingReadyKeepsInv(s, txid, coloring, Members(fees), drain, wraps);
      if coloring == None {
        unspendable := UnspendableUtxos(utxos, None);
        Await(txid, Funding(None, 0, 0, {}, Members(fees), {}, drain));
        return Done, unspendable, {};
      }
      var (contract, amount) := coloring.value;
      if contract !in supply {
        return Aborted, [], {};
      }
      var inputs, inputAmount := ChooseInputs(contract, amount);
      if inputAmount < amount {
        if wraps {
          utxos := utxos + [RgbUtxo(Outpoint(txid, 2), true)];
          txids := txids + {txid};
        }
        return Aborted, [], {};
      }
      var change := inputAmount - amount;
      unspendable := UnspendableUtxos(utxos, Some(inputs));
      assert Members(inputs + fees) == Members(inputs) + Members(fees);
      attached := AttachInputs(contract, amount, inputs + fees, Members(fees), s);
      Await(txid, Funding(Some(contract), amount, change, Members(inputs), Members(fees), attached, drain));
      return Done, unspendable, attached;
    }

    /** A channel we funded is ready: its transaction has confirmed and its
        consignment is accepted. */
    method ChannelReady(txid: Txid, opout: Opout, changeOpout: Opout)
      requires Valid() && txid in fundings && opout !in history && changeOpout !in history && opout != changeOpout
      requires fundings[txid].inputs + fundings[txid].fees <= unspent
      modifies this
      ensures Valid() && State() == DoFundingSeen(old(State()), txid, opout, changeOpout)
    {
      hide Inv, FundingRecord, Settle, Credit;
      FundingSeenKeepsInv(State(), txid, opout, changeOpout);
      var f := fundings[txid];
      fundings := fundings - {txid};
      burnt := if f.contract.Some? && f.change > 0 && !f.drain then Credit(burnt, f.contract.value, f.change)
               else burnt;
      Record(f.inputs + f.fees, if f.drain then {Outpoint(txid, 2)} else {}, {Outpoint(txid, 0)},
             FundingRecord(f, txid, opout, changeOpout), {txid});
    }

    /** A coloured channel a peer funded is ready. */
    method PeerChannelReady(txid: Txid, consigned: Consignment)
      requires Valid() && txid !in txids && Deliverable(State(), consigned)
      modifies this
      ensures Valid() && State() == DoPeerFunding(old(State()), txid, consigned)
    {
      hide Inv;
      PeerFundingKeepsInv(State(), txid, consigned);
      Learn(consigned.contract, consigned.supply);
      outside := Debit(outside, consigned.contract, consigned.amount);
      var channel := Outpoint(txid, 0);
      Record({}, {}, {channel}, map[consigned.opout := Allocation(consigned.contract, channel, consigned.amount)],
             {txid});
    }

    lemma InvClosings(s: NodeState.State)
      requires Inv(s)
      ensures ClosingsOk(s)
    {}

    /** Sweeping one spendable output of a closed coloured channel. */
    method SpendableOutput(opout: Opout, valid: bool, txid: Txid, outputs: seq<bool>, swept: Opout)
      returns (outcome: Outcome)
      requires Valid() && Sweepable(State(), opout, txid, swept)
      modifies this
      ensures Valid() && (State(), outcome) == DoSweep(old(State()), opout, valid, txid, outputs, swept)
    {
      hide Inv;
      ghost var s := State();
      SweepKeepsInv(s, opout, valid, txid, outputs, swept);
      if !valid {
        return Skipped;
      }
      var from := history[opout].seal;
      var closing := closings[from.txid];
      AllocationFits(opout);
      assert Sweep.ShareAt(Sweep.Flat(closing.bundle), from.vout) == history[opout].amount by {
        InvClosings(s);
        SweptAmount(s, opout);
      }
      var amount := Sweep.AmountAt(closing.bundle, from.vout);
      var vout := Sweep.BeneficiaryVout(outputs);
      utxos := utxos + [RgbUtxo(Outpoint(txid, vout), true)];
      burnt := if Sweep.SealHolds(outputs) then burnt else Credit(burnt, closing.contract, amount);
      Record({from}, Outputs(txid, set v | 0 <= v < |outputs| && !outputs[v]), {},
             map[swept := Allocation(closing.contract, Outpoint(txid, vout), amount)], {txid});
      return Done;
    }

    /** Sweeping a plain output: the wallet gains what is not the OP_RETURN. */
    method SweepPlain(txid: Txid, outputs: seq<bool>)
      requires Valid() && txid !in txids
      modifies this
      ensures Valid() && State() == Next(old(State()), PlainTurn(txid, outputs)).0
    {
      hide Inv;
      StepKeepsInv(State(), PlainTurn(txid, outputs));
      Record({}, Outputs(txid, set v | 0 <= v < |outputs| && !outputs[v]), {}, map[], {txid});
    }

    /** The event's loop over descriptors. */
    method SpendableOutputs(descriptors: seq<Descriptor>, ghost after: NodeState.State)
      requires Valid() && Leads(State(), SweepTurns(descriptors), after)
      modifies this
      ensures Valid() && State() == after
    {
      hide Inv, DoSweep;
      for i := 0 to |descriptors|
        invariant Valid() && Leads(State(), SweepTurns(descriptors[i..]), after)
      {
        assert SweepTurns(descriptors[i..])[1..] == SweepTurns(descriptors[i + 1..]);
        match descriptors[i] {
          case Coloured(opout, valid, txid, outputs, swept) =>
            var outcome := SpendableOutput(opout, valid, txid, outputs, swept);
          case Plain(txid, outputs) =>
            SweepPlain(txid, outputs);
        }
      }
    }
  }

  datatype Descriptor =
    | Coloured(opout: Opout, valid: bool, txid: Txid, outputs: seq<bool>, swept: Opout)
    | Plain(txid: Txid, outputs: seq<bool>)

  /** To the ledger, a plain output arriving in the wallet is a deposit. */
  function PlainTurn(txid: Txid, outputs: seq<bool>): Event {
    Event.Deposit(txid, set v | 0 <= v < |outputs| && !outputs[v])
  }

  function SweepTurn(d: Descriptor): Event {
    match d
    case Coloured(opout, valid, txid, outputs, swept) => Event.SpendableOutput(opout, valid, txid, outputs, swept)
    case Plain(txid, outputs) => PlainTurn(txid, outputs)
  }

  ghost function SweepTurns(descriptors: seq<Descriptor>): seq<Event> {
    seq(|descriptors|, i requires 0 <= i < |descriptors| => SweepTurn(descriptors[i]))
  }

  ghost function RefreshTurns(turns: seq<(Outpoint, Delivery)>): seq<Event> {
    seq(|turns|, i requires 0 <= i < |turns| => Event.RefreshFile(turns[i].0, turns[i].1))
  }
}
