/** The swap offer a maker prints and a taker reads (src/swap.rs and the
    `makerinit` command). */
module SwapString {
  import opened Prelude
  import Decimal
  import HexUtils

  const COLON: u8 := 0x3A
  const BUY: Text := [0x62, 0x75, 0x79]
  const SELL: Text := [0x73, 0x65, 0x6C, 0x6C]

  /** The side is the taker's: a buyer receives the asset and pays msats. */
  datatype SwapType =
    | BuyAsset(amountRgb: u64, amountMsats: u64)
    | SellAsset(amountRgb: u64, amountMsats: u64)
  {
    function Opposite(): SwapType {
      if BuyAsset? then SellAsset(amountRgb, amountMsats) else BuyAsset(amountRgb, amountMsats)
    }

    function Side(): Text {
      if BuyAsset? then BUY else SELL
    }
  }

  /** A trade as both tables store it. */
  datatype Trade = Trade(contract: ContractId, swapType: SwapType)

  datatype Swap = Swap(trade: Trade, expiry: u64, paymentHash: PaymentHash)

  datatype ParseError =
    | WrongNumberOfParts | UnableToParseParts | ZeroPart | InvalidSwapType | Overflow

  datatype Parsed = Ok(swap: Swap) | Err(error: ParseError)

  /** A development build stops on integer overflow, a release build wraps. */
  datatype Build = Dev | Release

  function Product(build: Build, amount: u64, price: u64): Option<u64> {
    if amount * price <= U64_MAX then Some(amount * price)
    else if build.Dev? then None
    else Some(amount * price % (U64_MAX + 1))
  }

  /** How contract ids are printed and read; their codec is another crate's. */
  datatype IdText = IdText(show: ContractId -> Text, parse: Text -> Option<ContractId>)

  ghost predicate Lawful(id: IdText) {
    forall c: ContractId :: id.parse(id.show(c)) == Some(c) && COLON !in id.show(c)
  }

  function Split(text: Text): (parts: seq<Text>)
    ensures parts != []
  {
    if text == [] then [[]]
    else
      var rest := Split(text[1..]);
      if text[0] == COLON then [[]] + rest else [[text[0]] + rest[0]] + rest[1..]
  }

  function Join(parts: seq<Text>): Text
    requires parts != []
  {
    if |parts| == 1 then parts[0] else parts[0] + [COLON] + Join(parts[1..])
  }

  ghost predicate ColonFree(parts: seq<Text>) {
    forall i :: 0 <= i < |parts| ==> COLON !in parts[i]
  }

  lemma {:induction false} SplitOfWord(word: Text)
    requires COLON !in word
    ensures Split(word) == [word]
  {
    if word != [] {
      SplitOfWord(word[1..]);
      assert [word[0]] + word[1..] == word;
    }
  }

  lemma {:induction false} SplitOfPrefix(word: Text, rest: Text)
    requires COLON !in word
    ensures Split(word + [COLON] + rest) == [word] + Split(rest)
  {
    var text := word + [COLON] + rest;
    if word == [] {
      assert text[1..] == rest;
    } else {
      SplitOfPrefix(word[1..], rest);
      assert text[1..] == word[1..] + [COLON] + rest;
      assert [word[0]] + word[1..] == word;
    }
  }

  /** Splitting undoes joining, for any number of colon-free parts. */
  lemma {:induction false} SplitOfJoin(parts: seq<Text>)
    requires parts != [] && ColonFree(parts)
    ensures Split(Join(parts)) == parts
  {
    if |parts| == 1 {
      SplitOfWord(parts[0]);
    } else {
      SplitOfJoin(parts[1..]);
      SplitOfPrefix(parts[0], Join(parts[1..]));
    }
  }

  /** Exactly 32 bytes make a payment hash. */
  function ParseHash(text: Text): Option<PaymentHash> {
    match HexUtils.Decode(text)
    case Some(bytes) => if |bytes| == 32 then Some(bytes) else None
    case None => None
  }

  function FromStr(build: Build, id: IdText, s: Text): Parsed {
    var parts := Split(s);
    if |parts| != 6 then Err(WrongNumberOfParts)
    else
      match (Decimal.ParseU64(parts[0]), id.parse(parts[1]), Decimal.ParseU64(parts[3]),
             Decimal.ParseU64(parts[4]), ParseHash(parts[5]))
      case (Some(amount), Some(asset), Some(price), Some(expiry), Some(hash)) =>
        if amount == 0 || price == 0 || expiry == 0 then Err(ZeroPart)
        else if parts[2] != BUY && parts[2] != SELL then Err(InvalidSwapType)
        else (
          match Product(build, amount, price)
          case None => Err(Overflow)
          case Some(msats) =>
            var swapType := if parts[2] == BUY then BuyAsset(amount, msats) else SellAsset(amount, msats);
            Ok(Swap(Trade(asset, swapType), expiry, hash)))
      case _ => Err(UnableToParseParts)
  }

  /** The text `makerinit` prints. */
  function Offer(id: IdText, amount: u64, asset: ContractId, side: Text, price: u64,
                 expiry: u64, hash: PaymentHash): Text
  {
    Join([Decimal.Show(amount), id.show(asset), side, Decimal.Show(price), Decimal.Show(expiry),
          HexUtils.Encode(hash)])
  }

  lemma ShownNumbersHaveNoColon(n: nat)
    ensures COLON !in Decimal.Show(n)
  {
    Decimal.ShowsDigits(n);
  }

  lemma HashIsRead(hash: PaymentHash)
    ensures ParseHash(HexUtils.Encode(hash)) == Some(hash)
    ensures COLON !in HexUtils.Encode(hash)
  {
    HexUtils.EncodeThenDecode(hash);
    var text := HexUtils.Encode(hash);
    forall i | 0 <= i < |text| ensures text[i] != COLON {
      assert HexUtils.Nibble(text[i]).Some?;
    }
  }

  lemma OfferParts(id: IdText, amount: u64, asset: ContractId, side: Text, price: u64, expiry: u64, hash: PaymentHash)
    requires Lawful(id) && (side == BUY || side == SELL)
    ensures Split(Offer(id, amount, asset, side, price, expiry, hash)) ==
            [Decimal.Show(amount), id.show(asset), side, Decimal.Show(price), Decimal.Show(expiry),
             HexUtils.Encode(hash)]
  {
    var parts := [Decimal.Show(amount), id.show(asset), side, Decimal.Show(price), Decimal.Show(expiry),
                  HexUtils.Encode(hash)];
    ShownNumbersHaveNoColon(amount);
    ShownNumbersHaveNoColon(price);
    ShownNumbersHaveNoColon(expiry);
    HashIsRead(hash);
    SplitOfJoin(parts);
  }

  /** Reading a printed offer gives back its asset, side, amount, expiry and
      hash, priced at amount * price; it fails exactly where the product does. */
  lemma OfferThenFromStr(build: Build, id: IdText, amount: u64, asset: ContractId, side: Text,
                         price: u64, expiry: u64, hash: PaymentHash)
    requires Lawful(id) && (side == BUY || side == SELL)
    requires amount != 0 && price != 0 && expiry != 0
    ensures FromStr(build, id, Offer(id, amount, asset, side, price, expiry, hash)) ==
            match Product(build, amount, price)
            case None => Err(Overflow)
            case Some(msats) =>
              Ok(Swap(Trade(asset, if side == BUY then BuyAsset(amount, msats) else SellAsset(amount, msats)), expiry,
                      hash))
  {
    hide Split, Offer, Decimal.ParseU64, ParseHash;
    OfferParts(id, amount, asset, side, price, expiry, hash);
    Decimal.ShowThenParse(amount);
    Decimal.ShowThenParse(price);
    Decimal.ShowThenParse(expiry);
    HashIsRead(hash);
  }

  /** Printing any accepted text's swap again, at the price the text quoted,
      gives a text read as the same swap. */
  lemma AcceptedTextsAreOffers(build: Build, id: IdText, text: Text) returns (price: u64)
    requires Lawful(id) && FromStr(build, id, text).Ok?
    ensures var swap := FromStr(build, id, text).swap;
            var t := swap.trade.swapType;
            Product(build, t.amountRgb, price) == Some(t.amountMsats) &&
            FromStr(build, id, Offer(id, t.amountRgb, swap.trade.contract, t.Side(), price, swap.expiry,
                                     swap.paymentHash))
            == Ok(swap)
  {
    var swap := FromStr(build, id, text).swap;
    var t := swap.trade.swapType;
    price := Decimal.ParseU64(Split(text)[3]).value;
    OfferThenFromStr(build, id, t.amountRgb, swap.trade.contract, t.Side(), price, swap.expiry, swap.paymentHash);
  }

  /** The parser's promise of non-zero amounts. Its own check covers amount and
      price; the product is non-zero exactly when it does not wrap to zero. */
  lemma ParsedAmounts(build: Build, id: IdText, text: Text)
    requires FromStr(build, id, text).Ok?
    ensures var t := FromStr(build, id, text).swap.trade.swapType;
            var price := Decimal.ParseU64(Split(text)[3]);
            t.amountRgb > 0 && price.Some? &&
            (t.amountMsats > 0 <==> build.Dev? || t.amountRgb * price.value % (U64_MAX + 1) != 0)
  {
    var t := FromStr(build, id, text).swap.trade.swapType;
    var price := Decimal.ParseU64(Split(text)[3]).value;
    assert t.amountRgb * price > 0;
  }

  /** A release build accepts an offer of 2^32 units at 2^32 msats each, to buy or
      to sell, and trades it for nothing. */
  lemma ReleaseBuildCanPriceAtZero(id: IdText, asset: ContractId, side: Text, expiry: u64, hash: PaymentHash)
    requires Lawful(id) && (side == BUY || side == SELL) && expiry != 0
    ensures var none := if side == BUY then BuyAsset(0x1_0000_0000, 0) else SellAsset(0x1_0000_0000, 0);
            FromStr(Release, id, Offer(id, 0x1_0000_0000, asset, side, 0x1_0000_0000, expiry, hash)) ==
            Ok(Swap(Trade(asset, none), expiry, hash))
  {
    hide FromStr, Offer, Lawful;
    OfferThenFromStr(Release, id, 0x1_0000_0000, asset, side, 0x1_0000_0000, expiry, hash);
  }

  lemma {:induction false} JoinOfSplit(text: Text)
    ensures Join(Split(text)) == text && ColonFree(Split(text))
  {
    if text != [] {
      var parts, rest := Split(text), Split(text[1..]);
      JoinOfSplit(text[1..]);
      if text[0] == COLON {
        assert parts[1..] == rest;
      } else if |rest| > 1 {
        assert parts[1..] == rest[1..];
      }
    }
  }

  /** Six parts that say a swap: asset, side, expiry and hash as they stand, and
      the msats as the product of amount and price. */
  predicate Says(build: Build, id: IdText, parts: seq<Text>, swap: Swap) {
    var trade := swap.trade.swapType;
    var price := if |parts| == 6 then Decimal.ParseU64(parts[3]) else None;
    && |parts| == 6
    && trade.amountRgb > 0 && Decimal.ParseU64(parts[0]) == Some(trade.amountRgb)
    && id.parse(parts[1]) == Some(swap.trade.contract)
    && parts[2] == trade.Side()
    && price.Some? && price.value > 0 && Product(build, trade.amountRgb, price.value) == Some(trade.amountMsats)
    && swap.expiry > 0 && Decimal.ParseU64(parts[4]) == Some(swap.expiry)
    && HexUtils.Decode(parts[5]) == Some(swap.paymentHash)
  }

  /** Exactly the texts that are accepted, and as what: those that join six
      colon-free parts which say the swap. */
  lemma ReadExactly(build: Build, id: IdText, text: Text, swap: Swap)
    ensures FromStr(build, id, text) == Ok(swap) <==>
            exists parts: seq<Text> ::
              parts != [] && ColonFree(parts) && Join(parts) == text && Says(build, id, parts, swap)
  {
    hide Split, Join, Decimal.ParseU64, HexUtils.Decode, ColonFree;
    JoinOfSplit(text);
    SaidExactly(build, id, text, swap);
    if parts: seq<Text> :| parts != [] && ColonFree(parts) && Join(parts) == text && Says(build, id, parts, swap) {
      SplitOfJoin(parts);
    }
  }

  lemma SaidExactly(build: Build, id: IdText, text: Text, swap: Swap)
    ensures FromStr(build, id, text) == Ok(swap) <==> Says(build, id, Split(text), swap)
  {
    hide Split, Decimal.ParseU64, HexUtils.Decode;
    assert BUY[0] != SELL[0];
  }

  /** Which error a refused text gets: the number of parts is checked first, then
      the parts, then zeros, then the side, and the product last. */
  lemma RefusedExactly(build: Build, id: IdText, text: Text)
    ensures var parts, result := Split(text), FromStr(build, id, text);
            && (result == Err(WrongNumberOfParts) <==> |parts| != 6)
            && (|parts| == 6 ==>
                  var amount, price, expiry :=
                    Decimal.ParseU64(parts[0]), Decimal.ParseU64(parts[3]), Decimal.ParseU64(parts[4]);
                  var bytes := HexUtils.Decode(parts[5]);
                  var readable := amount.Some? && id.parse(parts[1]).Some? && price.Some? && expiry.Some?
                                  && bytes.Some? && |bytes.value| == 32;
                  var zero := amount == Some(0) || price == Some(0) || expiry == Some(0);
                  var side := parts[2] == BUY || parts[2] == SELL;
                  && (result == Err(UnableToParseParts) <==> !readable)
                  && (result == Err(ZeroPart) <==> readable && zero)
                  && (result == Err(InvalidSwapType) <==> readable && !zero && !side)
                  && (result == Err(Overflow) <==>
                        readable && !zero && side && build.Dev? && amount.value * price.value > U64_MAX))
  {
    hide Split, Decimal.ParseU64, HexUtils.Decode;
  }

  /** A product is exact in a development build, or missing; a release build has
      what is left of it below 2^64. */
  lemma ProductExactly(build: Build, amount: u64, price: u64) returns (wraps: nat)
    ensures match Product(build, amount, price)
            case None => build.Dev? && amount * price > U64_MAX
            case Some(msats) => amount * price == msats + wraps * (U64_MAX + 1) && (build.Dev? ==> wraps == 0)
  {
    wraps := amount * price / (U64_MAX + 1);
  }
}
