/** RGB allocations, their totals, and the greedy choice of inputs
    (src/rgb_utils.rs; the selection loops of `sendasset` and of channel
    funding). */
module Ledger {
  import opened Prelude

  type Txid = nat

  datatype Outpoint = Outpoint(txid: Txid, vout: nat)

  /** Opouts are ordered labels: the key order of the source's BTreeMap. */
  type Opout = nat

  datatype Allocation = Allocation(contract: ContractId, seal: Outpoint, amount: nat)

  /** Every assignment the node has accepted, spent or not. */
  type History = map<Opout, Allocation>

  // ---- Totals over sets of opouts

  lemma {:induction false} LeastOf(s: set<Opout>) returns (k: Opout)
    requires s != {}
    ensures k in s && forall x :: x in s ==> k <= x
    decreases s
  {
    k :| k in s;
    var rest := s - {k};
    assert forall x :: x in s ==> x == k || x in rest;
    if rest != {} {
      var m := LeastOf(rest);
      if m < k {
        k := m;
      }
    }
  }

  lemma LeastExists(s: set<Opout>)
    requires s != {}
    ensures exists k :: k in s && forall x :: x in s ==> k <= x
  {
    var k := LeastOf(s);
  }

  ghost function Least(s: set<Opout>): (k: Opout)
    requires s != {}
    ensures k in s && forall x :: x in s ==> k <= x
  {
    LeastExists(s);
    var k :| k in s && forall x :: x in s ==> k <= x;
    k
  }

  ghost function Total(h: History, s: set<Opout>): nat
    requires s <= h.Keys
  {
    if s == {} then 0 else var k := Least(s); h[k].amount + Total(h, s - {k})
  }

  lemma {:induction false} TotalRemove(h: History, s: set<Opout>, x: Opout)
    requires s <= h.Keys && x in s
    ensures Total(h, s) == h[x].amount + Total(h, s - {x})
    decreases s
  {
    var k := Least(s);
    if x != k {
      TotalRemove(h, s - {k}, x);
      TotalRemove(h, s - {x}, k);
      assert s - {k} - {x} == s - {x} - {k};
    }
  }

  lemma {:induction false} TotalUnion(h: History, a: set<Opout>, b: set<Opout>)
    requires a <= h.Keys && b <= h.Keys && a !! b
    ensures Total(h, a + b) == Total(h, a) + Total(h, b)
    decreases a
  {
    if a == {} {
      assert a + b == b;
    } else {
      var x :| x in a;
      TotalRemove(h, a, x);
      TotalRemove(h, a + b, x);
      assert a + b - {x} == (a - {x}) + b;
      TotalUnion(h, a - {x}, b);
    }
  }

  lemma TotalSplit(h: History, s: set<Opout>, part: set<Opout>)
    requires part <= s <= h.Keys
    ensures Total(h, s) == Total(h, part) + Total(h, s - part)
  {
    TotalUnion(h, part, s - part);
    assert part + (s - part) == s;
  }

  lemma {:induction false} TotalAgrees(h: History, g: History, s: set<Opout>)
    requires s <= h.Keys && s <= g.Keys
    requires forall o :: o in s ==> h[o].amount == g[o].amount
    ensures Total(h, s) == Total(g, s)
    decreases s
  {
    if s != {} {
      var k := Least(s);
      TotalAgrees(h, g, s - {k});
    }
  }

  lemma TotalOne(h: History, x: Opout)
    requires x in h
    ensures Total(h, {x}) == h[x].amount
  {}

  // ---- What a wallet owns

  /** The contract's allocations on a set of outpoints. */
  function On(h: History, c: ContractId, outpoints: set<Outpoint>): (s: set<Opout>)
    ensures s <= h.Keys
  {
    set o | o in h && h[o].contract == c && h[o].seal in outpoints
  }

  function Seals(h: History, s: set<Opout>): set<Outpoint>
    requires s <= h.Keys
  {
    set o | o in s :: h[o].seal
  }

  datatype Owned = Owned(outpoint: Outpoint, amount: nat)

  /** The contract's allocations that sit on unspent outpoints, keyed and so
      ordered by opout. */
  method GetAssetOwnedValues(h: History, c: ContractId, unspent: set<Outpoint>) returns (owned: map<Opout, Owned>)
    ensures owned == map o | o in On(h, c, unspent) :: Owned(h[o].seal, h[o].amount)
  {
    owned := map[];
    var rest := h.Keys;
    while rest != {}
      invariant rest <= h.Keys
      invariant owned == map o | o in On(h, c, unspent) && o !in rest :: Owned(h[o].seal, h[o].amount)
      decreases rest
    {
      var o :| o in rest;
      rest := rest - {o};
      if h[o].contract == c && h[o].seal in unspent {
        owned := owned[o := Owned(h[o].seal, h[o].amount)];
      }
    }
  }

  /** `get_rgb_total_amount`: the sum of the owned amounts. */
  method GetRgbTotalAmount(h: History, c: ContractId, unspent: set<Outpoint>) returns (total: u64)
    requires Total(h, On(h, c, unspent)) <= U64_MAX
    ensures total == Total(h, On(h, c, unspent))
  {
    var owned := GetAssetOwnedValues(h, c, unspent);
    ghost var all := On(h, c, unspent);
    total := 0;
    var rest := owned.Keys;
    assert rest == all;
    while rest != {}
      invariant rest <= all && total + Total(h, rest) == Total(h, all)
      decreases rest
    {
      var o :| o in rest;
      TotalRemove(h, rest, o);
      total := total + owned[o].amount;
      rest := rest - {o};
    }
  }

  /** The inputs `send_rgb` adds to a transition: every allocation of the
      contract on the transaction's previous outputs. */
  method AttachState(h: History, c: ContractId, prevOutputs: seq<Outpoint>) returns (attached: set<Opout>)
    ensures attached == On(h, c, Members(prevOutputs))
  {
    attached := {};
    var rest := h.Keys;
    while rest != {}
      invariant rest <= h.Keys && attached == On(h, c, Members(prevOutputs)) - rest
      decreases rest
    {
      var o :| o in rest;
      rest := rest - {o};
      if h[o].contract == c && h[o].seal in prevOutputs {
        attached := attached + {o};
      }
    }
  }

  // ---- Greedy selection

  /** The opouts taken in key order until they cover the amount, or all. */
  ghost function Selected(h: History, s: set<Opout>, amount: nat): (taken: set<Opout>)
    requires s <= h.Keys
    ensures taken <= s
  {
    if amount == 0 || s == {} then {}
    else
      var k := Least(s);
      {k} + Selected(h, s - {k}, if h[k].amount < amount then amount - h[k].amount else 0)
  }

  /** The next key a BTreeMap iterates over. */
  method FirstKey(keys: set<Opout>) returns (k: Opout)
    requires keys != {}
    ensures k == Least(keys)
  {
    LeastExists(keys);
    k :| k in keys && forall x :: x in keys ==> k <= x;
  }

  /** The selection loop. The running sum stays within u64 because the sum of
      all the amounts does. */
  method SelectInputs(ghost h: History, ghost s: set<Opout>, owned: map<Opout, Owned>, amount: u64)
    returns (inputs: seq<Outpoint>, inputAmount: u64)
    requires s <= h.Keys && owned.Keys == s && Total(h, s) <= U64_MAX
    requires forall o :: o in s ==> owned[o] == Owned(h[o].seal, h[o].amount)
    ensures inputAmount == Total(h, Selected(h, s, amount))
    ensures Members(inputs) == Seals(h, Selected(h, s, amount))
  {
    inputs, inputAmount := [], 0;
    var rest := owned.Keys;
    ghost var taken: set<Opout> := {};
    while rest != {}
      invariant rest <= s && taken == s - rest
      invariant inputAmount == Total(h, taken)
      invariant Members(inputs) == Seals(h, taken)
      invariant Selected(h, s, amount) == taken + Selected(h, rest, SaturatingSub(amount, inputAmount))
      decreases rest
    {
      if inputAmount >= amount {
        break;
      }
      var opout := FirstKey(rest);
      OneMoreInput(h, s, taken, rest, opout, amount);
      MembersGrow(inputs, owned[opout].outpoint);
      inputs := inputs + [owned[opout].outpoint];
      inputAmount := inputAmount + owned[opout].amount;
      taken := taken + {opout};
      rest := rest - {opout};
    }
    assert Selected(h, s, amount) == taken;
  }

  lemma OneMoreInput(h: History, s: set<Opout>, taken: set<Opout>, rest: set<Opout>, x: Opout, amount: u64)
    requires rest <= s <= h.Keys && taken == s - rest && Total(h, s) <= U64_MAX
    requires rest != {} && x == Least(rest) && Total(h, taken) < amount
    ensures Total(h, taken + {x}) == Total(h, taken) + h[x].amount <= U64_MAX
    ensures Seals(h, taken + {x}) == Seals(h, taken) + {h[x].seal}
    ensures Selected(h, rest, SaturatingSub(amount, Total(h, taken))) ==
            {x} + Selected(h, rest - {x}, SaturatingSub(amount, Total(h, taken + {x})))
  {
    TotalRemove(h, taken + {x}, x);
    assert taken + {x} - {x} == taken;
    TotalSplit(h, s, taken + {x});
    SealsGrow(h, taken, x);
  }

  function Members(inputs: seq<Outpoint>): set<Outpoint> {
    set p | p in inputs
  }

  lemma MembersGrow(inputs: seq<Outpoint>, p: Outpoint)
    ensures Members(inputs + [p]) == Members(inputs) + {p}
  {}

  lemma SealsGrow(h: History, s: set<Opout>, x: Opout)
    requires s <= h.Keys && x in h
    ensures Seals(h, s + {x}) == Seals(h, s) + {h[x].seal}
  {}

  lemma {:induction false} SelectedCovers(h: History, s: set<Opout>, amount: nat)
    requires s <= h.Keys
    ensures Total(h, Selected(h, s, amount)) >= amount <==> amount <= Total(h, s)
    ensures Total(h, s) < amount ==> Selected(h, s, amount) == s
    ensures forall a, b :: a in Selected(h, s, amount) && b in s && b <= a ==> b in Selected(h, s, amount)
    decreases s
  {
    if amount != 0 && s != {} {
      var k := Least(s);
      var left := if h[k].amount < amount then amount - h[k].amount else 0;
      SelectedCovers(h, s - {k}, left);
      TotalRemove(h, Selected(h, s, amount), k);
      assert Selected(h, s, amount) - {k} == Selected(h, s - {k}, left);
      TotalRemove(h, s, k);
    }
  }

  lemma {:induction false} SelectedIsTight(h: History, s: set<Opout>, amount: nat, last: Opout)
    requires s <= h.Keys && last in Selected(h, s, amount)
    requires forall b :: b in Selected(h, s, amount) ==> b <= last
    ensures Total(h, Selected(h, s, amount) - {last}) < amount
    decreases s
  {
    var k, all := Least(s), Selected(h, s, amount);
    var left := if h[k].amount < amount then amount - h[k].amount else 0;
    var tail := Selected(h, s - {k}, left);
    assert all == {k} + tail && k !in tail;
    if last == k {
      assert forall b :: b in tail ==> k <= b;
      assert tail == {};
    } else {
      SelectedIsTight(h, s - {k}, left, last);
      TotalRemove(h, all - {last}, k);
      assert all - {last} - {k} == tail - {last};
    }
  }

  /** The keys in front of one. */
  function Before(s: set<Opout>, k: Opout): set<Opout> {
    set o | o in s && o < k
  }

  /** What the loop takes: the keys that those in front of them do not cover. */
  lemma {:induction false} TakenExactly(h: History, s: set<Opout>, amount: nat, o: Opout)
    requires s <= h.Keys
    ensures o in Selected(h, s, amount) <==> o in s && Total(h, Before(s, o)) < amount
    decreases s
  {
    if amount != 0 && o in s {
      var k := Least(s);
      var left := if h[k].amount < amount then amount - h[k].amount else 0;
      if o == k {
        assert Before(s, o) == {};
      } else {
        TakenExactly(h, s - {k}, left, o);
        TotalRemove(h, Before(s, o), k);
        assert Before(s, o) - {k} == Before(s - {k}, o);
      }
    }
  }

  /** The selection covers the amount exactly when the whole does, and then it is
      the shortest run of keys that does. */
  lemma SelectedIsLeastCover(h: History, s: set<Opout>, amount: nat)
    requires s <= h.Keys
    ensures Total(h, Selected(h, s, amount)) >= amount <==> amount <= Total(h, s)
    ensures Total(h, s) < amount ==> Selected(h, s, amount) == s
    ensures forall a, b :: a in Selected(h, s, amount) && b in s && b <= a ==> b in Selected(h, s, amount)
    ensures forall a :: a in Selected(h, s, amount) && (forall b :: b in Selected(h, s, amount) ==> b <= a) ==>
              Total(h, Selected(h, s, amount) - {a}) < amount
  {
    SelectedCovers(h, s, amount);
    forall a | a in Selected(h, s, amount) && (forall b :: b in Selected(h, s, amount) ==> b <= a)
      ensures Total(h, Selected(h, s, amount) - {a}) < amount
    {
      SelectedIsTight(h, s, amount, a);
    }
  }

  /** The change left by a selection is below the last amount it took. */
  lemma {:induction false} ChangeIsBelowTheLast(h: History, s: set<Opout>, amount: nat, last: Opout)
    requires s <= h.Keys && last in Selected(h, s, amount)
    requires forall b :: b in Selected(h, s, amount) ==> b <= last
    ensures Total(h, Selected(h, s, amount)) - amount < h[last].amount
  {
    SelectedIsLeastCover(h, s, amount);
    TotalRemove(h, Selected(h, s, amount), last);
  }

  /** Any other run of keys that covers the amount contains the selection. */
  lemma {:induction false} SelectedIsWithinAnyCover(h: History, s: set<Opout>, amount: nat, cover: set<Opout>)
    requires cover <= s <= h.Keys && amount <= Total(h, cover)
    requires forall a, b :: a in cover && b in s && b <= a ==> b in cover
    ensures Selected(h, s, amount) <= cover
  {
    var all := Selected(h, s, amount);
    SelectedIsLeastCover(h, s, amount);
    if x :| x in all && x !in cover {
      assert forall b :: b in cover ==> b < x;
      var last := GreatestOf(all);
      assert cover <= all - {last};
      TotalSplit(h, all - {last}, cover);
    }
  }

  lemma {:induction false} GreatestOf(s: set<Opout>) returns (k: Opout)
    requires s != {}
    ensures k in s && forall x :: x in s ==> x <= k
    decreases s
  {
    k :| k in s;
    var rest := s - {k};
    assert forall x :: x in s ==> x == k || x in rest;
    if rest != {} {
      var m := GreatestOf(rest);
      if k < m {
        k := m;
      }
    }
  }

  // ---- What a transition attaches

  /** `send_rgb` attaches every allocation of the contract on the inputs, so it
      moves what was selected plus whatever else shares those outpoints: for any
      history at all, the two sums agree exactly when the rest is worth nothing. */
  lemma AttachedBeyondSelected(h: History, c: ContractId, unspent: set<Outpoint>, amount: nat)
    ensures var taken := Selected(h, On(h, c, unspent), amount);
            var attached := On(h, c, Seals(h, taken));
            taken <= attached
            && Total(h, attached) == Total(h, taken) + Total(h, attached - taken)
            && (Total(h, attached) == Total(h, taken) <==> forall o :: o in attached - taken ==> h[o].amount == 0)
  {
    var taken := Selected(h, On(h, c, unspent), amount);
    var attached := On(h, c, Seals(h, taken));
    TotalSplit(h, attached, taken);
    TotalZero(h, attached - taken);
  }

  lemma {:induction false} TotalZero(h: History, s: set<Opout>)
    requires s <= h.Keys
    ensures Total(h, s) == 0 <==> forall o :: o in s ==> h[o].amount == 0
    decreases s
  {
    if s != {} {
      var k := Least(s);
      TotalZero(h, s - {k});
      assert forall o :: o in s <==> o == k || o in s - {k};
    }
  }

  /** No two allocations share one of the outpoints. */
  ghost predicate SingleOn(h: History, outpoints: set<Outpoint>) {
    forall a, b :: a in h && b in h && h[a].seal == h[b].seal && h[a].seal in outpoints ==> a == b
  }

  /** With one allocation per outpoint, a transition attaches exactly what was
      selected, and its inputs hold nothing of any other contract. */
  lemma AttachedIsSelected(h: History, c: ContractId, unspent: set<Outpoint>, amount: nat)
    requires SingleOn(h, unspent)
    ensures var taken := Selected(h, On(h, c, unspent), amount);
            On(h, c, Seals(h, taken)) == taken
            && forall o :: o in h && h[o].seal in Seals(h, taken) ==> o in taken
  {}
}
