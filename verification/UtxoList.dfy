/** The node's list of UTXOs and their `colored` flags (src/cli.rs,
    `check_uncolored_utxos`, `get_utxo`; src/main.rs, the unspendable set). */
module UtxoList {
  import opened Prelude
  import opened Ledger

  datatype RgbUtxo = RgbUtxo(outpoint: Outpoint, colored: bool)

  type Utxos = seq<RgbUtxo>

  predicate Distinct(utxos: Utxos) {
    forall i, j :: 0 <= i < j < |utxos| ==> utxos[i].outpoint != utxos[j].outpoint
  }

  predicate Listed(utxos: Utxos, p: Outpoint) {
    RgbUtxo(p, true) in utxos || RgbUtxo(p, false) in utxos
  }

  predicate HasUncolored(utxos: Utxos) {
    exists i :: 0 <= i < |utxos| && !utxos[i].colored
  }

  function FirstUncolored(utxos: Utxos): (k: nat)
    requires HasUncolored(utxos)
    ensures k < |utxos| && !utxos[k].colored && forall j :: 0 <= j < k ==> utxos[j].colored
  {
    if !utxos[0].colored then 0 else 1 + FirstUncolored(utxos[1..])
  }

  /** The outpoint the next asset goes to. */
  function Free(utxos: Utxos): Outpoint
    requires HasUncolored(utxos)
  {
    utxos[FirstUncolored(utxos)].outpoint
  }

  function ColorFree(utxos: Utxos): Utxos
    requires HasUncolored(utxos)
  {
    utxos[FirstUncolored(utxos) := RgbUtxo(Free(utxos), true)]
  }

  /** `check_uncolored_utxos` and `get_utxo`. */
  method GetUtxo(utxos: Utxos) returns (found: Option<Outpoint>)
    ensures found == if HasUncolored(utxos) then Some(Free(utxos)) else None
  {
    for i := 0 to |utxos|
      invariant forall j :: 0 <= j < i ==> utxos[j].colored
    {
      if !utxos[i].colored {
        FirstIsUnique(utxos, i);
        return Some(utxos[i].outpoint);
      }
    }
    return None;
  }

  lemma FirstIsUnique(utxos: Utxos, k: nat)
    requires k < |utxos| && !utxos[k].colored && forall j :: 0 <= j < k ==> utxos[j].colored
    ensures HasUncolored(utxos) && FirstUncolored(utxos) == k
  {}

  /** Sets the flag of the first entry with the outpoint. On a list of distinct
      outpoints that is the entry `get_utxo` found. */
  method Color(utxos: Utxos, p: Outpoint) returns (out: Utxos)
    requires Distinct(utxos) && HasUncolored(utxos) && p == Free(utxos)
    ensures out == ColorFree(utxos)
  {
    out := utxos;
    for i := 0 to |utxos|
      invariant out == utxos && forall j :: 0 <= j < i ==> utxos[j].outpoint != p
    {
      if utxos[i].outpoint == p {
        out := utxos[i := utxos[i].(colored := true)];
        return;
      }
    }
  }

  /** Nothing is forgotten: entries keep their place and outpoint, and a set flag
      stays set. */
  predicate Extends(before: Utxos, after: Utxos) {
    |before| <= |after| &&
    forall i :: 0 <= i < |before| ==>
      after[i].outpoint == before[i].outpoint && (before[i].colored ==> after[i].colored)
  }

  lemma ColorFreeChanges(utxos: Utxos)
    requires Distinct(utxos) && HasUncolored(utxos)
    ensures var after := ColorFree(utxos);
            Distinct(after) && Extends(utxos, after)
            && RgbUtxo(Free(utxos), false) in utxos && RgbUtxo(Free(utxos), true) !in utxos
            && (forall p :: RgbUtxo(p, true) in after <==> RgbUtxo(p, true) in utxos || p == Free(utxos))
            && (forall p :: RgbUtxo(p, false) in after <==> RgbUtxo(p, false) in utxos && p != Free(utxos))
  {}

  lemma PushChanges(utxos: Utxos, u: RgbUtxo)
    requires Distinct(utxos) && !Listed(utxos, u.outpoint)
    ensures Distinct(utxos + [u]) && Extends(utxos, utxos + [u])
  {}

  /** Uncoloured entries for the first outputs of a transaction. */
  function NewUtxos(txid: Txid, n: nat): Utxos {
    seq(n, i requires 0 <= i < n => RgbUtxo(Outpoint(txid, i), false))
  }

  lemma NewUtxosChange(utxos: Utxos, txid: Txid, n: nat)
    requires Distinct(utxos) && forall p :: Listed(utxos, p) ==> p.txid != txid
    ensures var after := utxos + NewUtxos(txid, n);
            Distinct(after) && Extends(utxos, after)
            && (forall p :: RgbUtxo(p, true) in after <==> RgbUtxo(p, true) in utxos)
            && (forall p :: RgbUtxo(p, false) in after <==>
                  RgbUtxo(p, false) in utxos || (p.txid == txid && p.vout < n))
  {
    var after := utxos + NewUtxos(txid, n);
    forall i | 0 <= i < |utxos| ensures utxos[i].outpoint.txid != txid {
      assert RgbUtxo(utxos[i].outpoint, utxos[i].colored) == utxos[i] && utxos[i] in utxos;
      assert Listed(utxos, utxos[i].outpoint);
    }
    forall p: Outpoint | p.txid == txid && p.vout < n ensures RgbUtxo(p, false) in after {
      assert after[|utxos| + p.vout] == RgbUtxo(p, false);
    }
  }

  /** The listed outpoints coin selection may not touch: all but the coloured
      ones chosen as inputs. */
  function Unspendable(utxos: Utxos, inputs: Option<set<Outpoint>>): set<Outpoint> {
    set u | u in utxos && (inputs == None || u.outpoint !in inputs.value || !u.colored) :: u.outpoint
  }

  method UnspendableUtxos(utxos: Utxos, inputs: Option<seq<Outpoint>>) returns (out: seq<Outpoint>)
    ensures Members(out) == Unspendable(utxos, if inputs.Some? then Some(Members(inputs.value)) else None)
  {
    ghost var chosen := if inputs.Some? then Some(Members(inputs.value)) else None;
    out := [];
    for i := 0 to |utxos|
      invariant Members(out) == Unspendable(utxos[..i], chosen)
    {
      assert utxos[..i + 1] == utxos[..i] + [utxos[i]];
      if inputs == None || utxos[i].outpoint !in inputs.value || !utxos[i].colored {
        MembersGrow(out, utxos[i].outpoint);
        out := out + [utxos[i].outpoint];
      }
      UnspendableGrows(utxos[..i], utxos[i], chosen);
    }
    assert utxos[..|utxos|] == utxos;
  }

  lemma UnspendableGrows(utxos: Utxos, u: RgbUtxo, inputs: Option<set<Outpoint>>)
    ensures Unspendable(utxos + [u], inputs) ==
            Unspendable(utxos, inputs)
            + (if inputs == None || u.outpoint !in inputs.value || !u.colored then {u.outpoint} else {})
  {}

  /** When the inputs are coloured entries of a list without repeats, excluded
      and forced outpoints are disjoint and together are the whole list. */
  lemma UnspendableIsTheRest(utxos: Utxos, inputs: set<Outpoint>)
    requires Distinct(utxos) && forall p :: p in inputs ==> RgbUtxo(p, true) in utxos
    ensures Unspendable(utxos, Some(inputs)) !! inputs
    ensures forall p :: p in Unspendable(utxos, Some(inputs)) + inputs <==> Listed(utxos, p)
    ensures forall p :: RgbUtxo(p, false) in utxos ==> p in Unspendable(utxos, Some(inputs))
  {}

  lemma OnlyOneFlag(utxos: Utxos, p: Outpoint)
    requires Distinct(utxos)
    ensures !(RgbUtxo(p, true) in utxos && RgbUtxo(p, false) in utxos)
  {}
}
