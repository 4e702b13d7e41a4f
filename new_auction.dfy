/**
 * Opening an auction: the auction contract instantiated for the seller, the
 * single auction box with its marker token, optional currency slot and six
 * registers, the funding request, the pending record, and the helper that
 * turns a registration into a wallet action.
 */
module NewAuction {
  import opened Wrappers
  import opened Encoding
  import opened Template
  import opened Ledger

  // ---------------------------------------------------------------- contract template

  // The auction contract text, cut at its seven placeholders.
  const AuctionText0 :=
      "{\n"
    + "  val userAddress = " + "fromBase64(\""

  const AuctionText1 :=
      "\")\n"
    + "  val bidAmount = "

  const AuctionText2 :=
      "L\n"
    + "  val endTime = "

  const AuctionText3 :=
      "L\n"
    + "  val bidDelta = "

  const AuctionText4 :=
      "L\n"
    + "  val currencyId = " + "fromBase64(\""

  const AuctionText5 :=
      "\")\n"
    + "  val buyItNow = "

  const AuctionLine18 := "  val startAuction = {\n"

  const AuctionLine19 := "      OUTPUTS(0).tokens.size " + "> 0 &&\n"

  const AuctionLine20 := "      OUTPUTS(0)." + "R4[Coll[Byte]]." + "getOrElse(INPUTS(0).id) == " + "userAddress &&\n"

  const AuctionLine21 := "      OUTPUTS(0)." + "R5[Coll[Byte]]." + "getOrElse(INPUTS(0).id) == " + "userAddress &&\n"

  const AuctionLine22 := "      OUTPUTS(0)." + "R6[Coll[Long]].get(0) == " + "bidAmount &&\n"

  const AuctionLine23 := "      OUTPUTS(0)." + "R6[Coll[Long]].get(1) == " + "bidDelta &&\n"

  const AuctionLine24 := "      OUTPUTS(0).R7[Long]." + "getOrElse(0L) == endTime &&\n"

  const AuctionLine25 := "      OUTPUTS(0).R8[Long]." + "getOrElse(0L) == buyItNow &&\n"

  const AuctionLine26 := "      (currencyId.size == 0 " + "|| (currencyId.size > 0 && " + "OUTPUTS(0).tokens(1)._1 == " + "currencyId)) \n"

  const AuctionLine28 := "  val returnFunds = {\n"

  const AuctionLine29 := "    val total = INPUTS." + "fold(0L, {(x:Long, b:Box) => " + "x + b.value}) - 2000000\n"

  const AuctionLine30 := "    OUTPUTS(0).value >= total " + "&& OUTPUTS(0)." + "propositionBytes == " + "userAddress && OUTPUTS.size " + "== 2\n"

  /** The `startAuction` block of the contract. */
  const AuctionStartBlock :=
      AuctionLine18
    + AuctionLine19
    + AuctionLine20
    + AuctionLine21
    + AuctionLine22
    + AuctionLine23
    + AuctionLine24
    + AuctionLine25
    + AuctionLine26
    + "  }\n"

  /** The `returnFunds` block of the contract. */
  const AuctionRefundBlock :=
      AuctionLine28
    + AuctionLine29
    + AuctionLine30
    + "  }\n"

  const AuctionLine32Head := "  sigmaProp((startAuction || " + "returnFunds) && HEIGHT < "

  const AuctionText6 := "\n" + AuctionStartBlock + AuctionRefundBlock + AuctionLine32Head

  const AuctionText7 :=
      "L)\n"
    + "}"

  // The text between the placeholders holds no `$`. The fact is stated piece by
  // piece, one small lemma per line or block, and then combined: checking a
  // long string literal character by character in one go is costly for the
  // verifier, while each short piece is checked at once. For the same reason the
  // template constants are cut into pieces of at most about thirty characters,
  // some in the middle of a line, and named after the source line they hold.

  lemma AuctionLine18Plain()
    ensures '$' !in AuctionLine18
  {
  }

  lemma AuctionLine19Plain()
    ensures '$' !in AuctionLine19
  {
  }

  lemma AuctionLine20Plain()
    ensures '$' !in AuctionLine20
  {
  }

  lemma AuctionLine21Plain()
    ensures '$' !in AuctionLine21
  {
  }

  lemma AuctionLine22Plain()
    ensures '$' !in AuctionLine22
  {
  }

  lemma AuctionLine23Plain()
    ensures '$' !in AuctionLine23
  {
  }

  lemma AuctionLine24Plain()
    ensures '$' !in AuctionLine24
  {
  }

  lemma AuctionLine25Plain()
    ensures '$' !in AuctionLine25
  {
  }

  lemma AuctionLine26Plain()
    ensures '$' !in AuctionLine26
  {
  }

  lemma AuctionLine28Plain()
    ensures '$' !in AuctionLine28
  {
  }

  lemma AuctionLine29Plain()
    ensures '$' !in AuctionLine29
  {
  }

  lemma AuctionLine30Plain()
    ensures '$' !in AuctionLine30
  {
  }

  lemma AuctionStartBlockPlain()
    ensures '$' !in AuctionStartBlock
  {
    AuctionLine18Plain();
    AuctionLine19Plain();
    AuctionLine20Plain();
    AuctionLine21Plain();
    AuctionLine22Plain();
    AuctionLine23Plain();
    AuctionLine24Plain();
    AuctionLine25Plain();
    AuctionLine26Plain();
  }

  lemma AuctionRefundBlockPlain()
    ensures '$' !in AuctionRefundBlock
  {
    AuctionLine28Plain();
    AuctionLine29Plain();
    AuctionLine30Plain();
  }

  lemma AuctionLine32HeadPlain()
    ensures '$' !in AuctionLine32Head
  {
  }

  lemma AuctionText6Plain()
    ensures '$' !in AuctionText6
  {
    AuctionStartBlockPlain();
    AuctionRefundBlockPlain();
    AuctionLine32HeadPlain();
  }

  lemma AuctionTexts0To2Plain()
    ensures '$' !in AuctionText0 && '$' !in AuctionText1 && '$' !in AuctionText2
  {
  }

  lemma AuctionTexts3To5Plain()
    ensures '$' !in AuctionText3 && '$' !in AuctionText4 && '$' !in AuctionText5
  {
  }

  lemma AuctionText7Plain()
    ensures '$' !in AuctionText7
  {
  }

  /** The text of the auction contract cut at its seven placeholders. */
  const AuctionTexts := [AuctionText0, AuctionText1, AuctionText2, AuctionText3,
                         AuctionText4, AuctionText5, AuctionText6, AuctionText7]

  /** The placeholders in the order they appear in the text, which is also the order they are replaced in. */
  const AuctionPlaceholders :=
    ["$userAddress", "$bidAmount", "$endTime", "$bidDelta", "$currencyId", "$buyItNow", "$timestamp"]

  /** The auction contract template. */
  const AuctionTemplate := Fill(AuctionTexts, AuctionPlaceholders)

  /** The text around the placeholders holds no `$`, so each placeholder occurs once. */
  lemma AuctionTextPlain()
    ensures Plain(AuctionTexts)
  {
    AuctionTexts0To2Plain();
    AuctionTexts3To5Plain();
    AuctionText6Plain();
    AuctionText7Plain();
  }

  lemma AuctionPlaceholdersMarked()
    ensures Placeholders(AuctionPlaceholders)
  {
  }

  /** The seven literals `getAuctionP2s` substitutes, in the form they take in the text. */
  datatype AuctionLiterals = AuctionLiterals(
    userAddress: string, bidAmount: string, endTime: string, bidDelta: string,
    currencyId: string, buyItNow: string, timestamp: string)

  /** The literals in the order of their placeholders. */
  function AuctionFillers(l: AuctionLiterals): (fs: seq<string>)
    ensures |fs| == |AuctionPlaceholders|
  {
    [l.userAddress, l.bidAmount, l.endTime, l.bidDelta, l.currencyId, l.buyItNow, l.timestamp]
  }

  /**
   * The literals for an auction starting at `initial` with minimum step `step`,
   * ending at `end`, with buy-it-now price `buyItNow`, in `currency`, by the
   * seller whose ergoTree is `userTree`, at wall-clock time `now`: the tree and
   * the currency id are hex-decoded and written in base64, integers in decimal.
   */
  function AuctionLiteralsOf(initial: int, end: int, step: int, buyItNow: int, currency: Currency,
                             userTree: string, now: int): (lits: AuctionLiterals)
    ensures currency.id == "" ==> lits.currencyId == ""
    ensures Plain(AuctionFillers(lits))
  {
    AuctionLiterals(
      Base64Encode(HexToBytes(userTree)),
      Decimal(initial),
      Decimal(end),
      Decimal(step),
      Base64Encode(HexToBytes(currency.id)),
      Decimal(buyItNow),
      Decimal(now))
  }

  /** The seven `replace` calls of `getAuctionP2s`, in text order. */
  function AuctionSubstitute(template: string, l: AuctionLiterals): string
  {
    ReplaceEach(template, AuctionPlaceholders, AuctionFillers(l))
  }

  /** `getAuctionP2s`: the auction contract text handed to the compiler. */
  function AuctionScript(initial: int, end: int, step: int, buyItNow: int, currency: Currency,
                         userTree: string, now: int): (script: string)
    ensures '\n' !in script
  {
    EscapeNewlines(AuctionSubstitute(AuctionTemplate, AuctionLiteralsOf(initial, end, step, buyItNow, currency, userTree, now)))
  }

  /** The auction template's placeholders are replaced once each, in place. */
  lemma AuctionScriptSplices(initial: int, end: int, step: int, buyItNow: int, currency: Currency,
                             userTree: string, now: int)
    ensures AuctionScript(initial, end, step, buyItNow, currency, userTree, now)
         == EscapeNewlines(Fill(AuctionTexts, AuctionFillers(AuctionLiteralsOf(initial, end, step, buyItNow, currency, userTree, now))))
  {
    AuctionTextPlain();
    AuctionPlaceholdersMarked();
    ReplaceInOrder(AuctionTexts, AuctionPlaceholders,
                   AuctionFillers(AuctionLiteralsOf(initial, end, step, buyItNow, currency, userTree, now)));
  }

  /** The compiled text holds no `$`, hence no placeholder, and is a single line. */
  lemma AuctionScriptComplete(initial: int, end: int, step: int, buyItNow: int, currency: Currency,
                              userTree: string, now: int)
    ensures var script := AuctionScript(initial, end, step, buyItNow, currency, userTree, now);
      && '$' !in script && '\n' !in script
      && forall i :: 0 <= i < |AuctionPlaceholders| ==> !Occurs(script, AuctionPlaceholders[i])
  {
    AuctionScriptSplices(initial, end, step, buyItNow, currency, userTree, now);
    AuctionTextPlain();
    EscapedFillPlain(AuctionTexts, AuctionFillers(AuctionLiteralsOf(initial, end, step, buyItNow, currency, userTree, now)));
    AuctionPlaceholdersMarked();
    NoPlaceholderLeft(AuctionScript(initial, end, step, buyItNow, currency, userTree, now), AuctionPlaceholders);
  }

  // ---------------------------------------------------------------- the startAuction guard

  /** The constants of an instantiated auction contract, as the contract reads them. */
  datatype AuctionConstants = AuctionConstants(
    userAddress: Option<seq<byte>>,
    bidAmount: Option<int>,
    endTime: Option<int>,
    bidDelta: Option<int>,
    currencyId: Option<seq<byte>>,
    buyItNow: Option<int>,
    timestamp: Option<int>)

  /** Reading the literals back: `fromBase64` decodes, an integer literal parses as decimal. */
  function ReadAuctionConstants(l: AuctionLiterals): (k: AuctionConstants)
    ensures k.userAddress == Base64Decode(l.userAddress) && k.currencyId == Base64Decode(l.currencyId)
  {
    AuctionConstants(
      Base64Decode(l.userAddress),
      ParseDecimal(l.bidAmount),
      ParseDecimal(l.endTime),
      ParseDecimal(l.bidDelta),
      Base64Decode(l.currencyId),
      ParseDecimal(l.buyItNow),
      ParseDecimal(l.timestamp))
  }

  /**
   * The contract reads back exactly what the client wrote: the seller's
   * hex-decoded tree and currency id, and each integer.
   */
  lemma ReadAuctionConstantsRoundTrip(initial: int, end: int, step: int, buyItNow: int, currency: Currency,
                                      userTree: string, now: int)
    ensures ReadAuctionConstants(AuctionLiteralsOf(initial, end, step, buyItNow, currency, userTree, now))
         == AuctionConstants(Some(HexToBytes(userTree)), Some(initial), Some(end), Some(step),
                             Some(HexToBytes(currency.id)), Some(buyItNow), Some(now))
  {
    Base64RoundTrip(HexToBytes(userTree));
    Base64RoundTrip(HexToBytes(currency.id));
    DecimalRoundTrip(initial);
    DecimalRoundTrip(end);
    DecimalRoundTrip(step);
    DecimalRoundTrip(buyItNow);
    DecimalRoundTrip(now);
  }

  /** `r.getOrElse(d)`: the register's value when it holds the expected type, `d` otherwise. */
  function GetOrElse<T>(r: Option<T>, d: T): (v: T)
    ensures r.Some? ==> v == r.value
    ensures r.None? ==> v == d
  {
    if r.Some? then r.value else d
  }

  /**
   * The `startAuction` conjunct of the auction contract together with its
   * deadline conjunct `HEIGHT < timestamp`; `input0` is the id of the first
   * input, the default the contract reads for a missing R4 or R5.
   */
  predicate StartAuction(k: AuctionConstants, height: int, input0: seq<byte>, outputs: seq<BoxSpec>)
  {
    && |outputs| > 0 && outputs[0].registers.Some?
    && var out, regs := outputs[0], outputs[0].registers.value;
    && |out.assets| > 0
    && k.userAddress.Some?
    && GetOrElse(CollBytes(regs.R4), input0) == k.userAddress.value
    && GetOrElse(CollBytes(regs.R5), input0) == k.userAddress.value
    && AsLongPair(regs.R6).Some? && k.bidAmount.Some? && k.bidDelta.Some?
    && AsLongPair(regs.R6).value.0 == k.bidAmount.value
    && AsLongPair(regs.R6).value.1 == k.bidDelta.value
    && k.endTime.Some? && GetOrElse(AsLong(regs.R7), 0) == k.endTime.value
    && k.buyItNow.Some? && GetOrElse(AsLong(regs.R8), 0) == k.buyItNow.value
    && k.currencyId.Some?
    && (|| |k.currencyId.value| == 0
        || (|k.currencyId.value| > 0 && |out.assets| > 1 && HexToBytes(out.assets[1].tokenId) == k.currencyId.value))
    && k.timestamp.Some? && height < k.timestamp.value
  }

  /**
   * How the guard treats registers it cannot read: a missing R4 or R5 counts as
   * the first input's id, a missing R7 or R8 as zero; R6 has no default.
   */
  lemma StartAuctionDefaults(k: AuctionConstants, height: int, input0: seq<byte>, outputs: seq<BoxSpec>)
    requires StartAuction(k, height, input0, outputs)
    ensures var regs := outputs[0].registers.value;
      && (CollBytes(regs.R4).None? ==> k.userAddress == Some(input0))
      && (CollBytes(regs.R5).None? ==> k.userAddress == Some(input0))
      && AsLongPair(regs.R6).Some?
      && (AsLong(regs.R7).None? ==> k.endTime == Some(0))
      && (AsLong(regs.R8).None? ==> k.buyItNow == Some(0))
  {
  }

  // ---------------------------------------------------------------- registerAuction

  /** The R9 text: the initial price, the block time and the description, comma-separated. */
  function AuctionInfo(initial: int, timestamp: int, description: string): (text: string)
    ensures Decimal(initial) <= text
  {
    Decimal(initial) + "," + Decimal(timestamp) + "," + description
  }

  /** The text before the first comma, and the text after it. */
  function SplitAtComma(s: string): (r: Option<(string, string)>)
    ensures r.Some? ==> ',' !in r.value.0 && s == r.value.0 + "," + r.value.1
    ensures r.None? ==> ',' !in s
  {
    if |s| == 0 then None
    else if s[0] == ',' then Some(([], s[1..]))
    else match SplitAtComma(s[1..])
      case None => None
      case Some((a, b)) => Some(([s[0]] + a, b))
  }

  /** Reading R9 back: the first two comma-separated fields are integers, the rest is the description. */
  function ParseAuctionInfo(text: string): Option<(int, int, string)>
  {
    match SplitAtComma(text)
    case None => None
    case Some((a, rest)) =>
      match SplitAtComma(rest)
      case None => None
      case Some((b, description)) =>
        match (ParseDecimal(a), ParseDecimal(b))
        case (Some(initial), Some(timestamp)) => Some((initial, timestamp, description))
        case _ => None
  }

  /** The first comma of `a + "," + b` is the one after `a` when `a` has none. */
  lemma {:induction false} SplitAfter(a: string, b: string)
    requires ',' !in a
    ensures SplitAtComma(a + "," + b) == Some((a, b))
  {
    if |a| > 0 {
      assert (a + "," + b)[1..] == a[1..] + "," + b;
      SplitAfter(a[1..], b);
      assert [a[0]] + a[1..] == a;
    } else {
      assert a + "," + b == [','] + b;
    }
  }

  lemma DecimalHasNoComma(n: int)
    ensures ',' !in Decimal(n)
  {
  }

  /** The R9 text gives back the initial price, the block time and the whole description, commas included. */
  lemma AuctionInfoRoundTrip(initial: int, timestamp: int, description: string)
    ensures ParseAuctionInfo(AuctionInfo(initial, timestamp, description)) == Some((initial, timestamp, description))
  {
    DecimalHasNoComma(initial);
    DecimalHasNoComma(timestamp);
    var rest := Decimal(timestamp) + "," + description;
    assert AuctionInfo(initial, timestamp, description) == Decimal(initial) + "," + rest;
    SplitAfter(Decimal(initial), rest);
    SplitAfter(Decimal(timestamp), description);
    DecimalRoundTrip(initial);
    DecimalRoundTrip(timestamp);
  }

  /** The assets of the auction box: the seller's token, then the currency slot for a token auction. */
  function AuctionAssets(currency: Currency): (assets: seq<Token>)
    ensures |assets| > 0 && assets[0] == Token(UserInputsToken, 0)
    ensures |assets| == if |currency.id| > 0 then 2 else 1
    ensures |currency.id| > 0 ==> assets[1] == Token(currency.id, -1)
  {
    if |currency.id| > 0 then [Token(UserInputsToken, 0), Token(currency.id, -1)] else [Token(UserInputsToken, 0)]
  }

  /**
   * The request `registerAuction` hands to the assembler: one auction box
   * worth whatever the user's inputs hold (`-1`), registers naming the seller
   * twice, the price and step, the end, the buy-it-now price and the info text;
   * the request waits for the minimum ERG less the fee, and for the currency
   * when one is set.
   */
  predicate AuctionRequest(cfg: Config, initial: int, currency: Currency, buyItNow: int, step: int, end: int,
                           description: string, block: Block, bidder: string, userTree: string, p2s: string,
                           request: Request)
  {
    var tx := request.txSpec;
    && request.address == p2s && request.returnTo == bidder
    && tx.fee == cfg.txFee && tx.inputs == [UserInputs] && tx.dataInputs == [cfg.dataInputBoxId]
    && |tx.requests| == 1
    && tx.requests[0] == BoxSpec(cfg.auctionAddress, -1, AuctionAssets(currency),
         Some(Registers(EncodedHex(userTree), EncodedHex(userTree), EncodedLongTuple(initial, step),
                        EncodedNum(end), EncodedNum(buyItNow), EncodedText(AuctionInfo(initial, block.timestamp, description)))))
    && request.startWhen.Keys == {"erg"} + (if |currency.id| > 0 then {currency.id} else {})
    && request.startWhen["erg"] == (if currency.id == "erg" then 0 else cfg.ergMinSupported - cfg.txFee)
    && (|currency.id| > 0 ==> request.startWhen[currency.id] == 0)
  }

  /** Builds the auction box and the funding request. */
  method BuildAuctionRequest(cfg: Config, initial: int, currency: Currency, buyItNow: int, step: int, end: int,
                             description: string, block: Block, bidder: string, userTree: string, p2s: string)
    returns (request: Request)
    ensures AuctionRequest(cfg, initial, currency, buyItNow, step, end, description, block, bidder, userTree, p2s, request)
  {
    var info := Decimal(initial) + "," + Decimal(block.timestamp) + "," + description;
    var auctionErg := -1;
    var auctionAssets := [Token(UserInputsToken, 0)];
    var start := map["erg" := cfg.ergMinSupported - cfg.txFee];
    if |currency.id| > 0 {
      start := start[currency.id := 0];
      auctionAssets := [Token(UserInputsToken, 0), Token(currency.id, -1)];
    }
    var reqs := [BoxSpec(cfg.auctionAddress, auctionErg, auctionAssets,
      Some(Registers(EncodedHex(userTree), EncodedHex(userTree), EncodedLongTuple(initial, step),
                     EncodedNum(end), EncodedNum(buyItNow), EncodedText(info))))];
    request := Request(p2s, bidder, start, TxSpec(reqs, cfg.txFee, [UserInputs], [cfg.dataInputBoxId]));
  }

  /**
   * The box `registerAuction` builds satisfies the `startAuction` guard of the
   * contract it pays into when the contract was compiled for the same seller
   * tree, prices, end and currency, whatever the first input, as long as the
   * chain height is below the contract's deadline.
   */
  lemma AuctionRequestPassesStartAuction(cfg: Config, initial: int, currency: Currency, buyItNow: int, step: int,
                                         end: int, description: string, block: Block, bidder: string,
                                         userTree: string, p2s: string, request: Request, now: int,
                                         height: int, input0: seq<byte>)
    requires AuctionRequest(cfg, initial, currency, buyItNow, step, end, description, block, bidder, userTree, p2s, request)
    requires height < now
    ensures StartAuction(ReadAuctionConstants(AuctionLiteralsOf(initial, end, step, buyItNow, currency, userTree, now)),
                         height, input0, request.txSpec.requests)
  {
    ReadAuctionConstantsRoundTrip(initial, end, step, buyItNow, currency, userTree, now);
  }

  const AuctionStartedMsg := "Your auction will be started soon!"

  /** The pending record `registerAuction` stores once the assembler accepted the request. */
  function AuctionRecord(id: string, initial: int, currency: Currency): (r: PendingBid)
    ensures r.info.isFirst && r.info.amount == initial && r.info.currency == Some(currency)
    ensures r.info.token.None? && r.info.boxId.None? && r.info.status == PendingMining
  {
    PendingBid(id, AuctionStartedMsg, BidInfo(
      token := None,
      boxId := None,
      txId := None,
      tx := None,
      prevEndTime := None,
      shouldExtend := None,
      status := PendingMining,
      amount := initial,
      currency := Some(currency),
      isFirst := true))
  }

  /**
   * `registerAuction`: builds the request paying into `p2s`, the address the
   * assembler compiled `AuctionScript(initial, end, step, buyItNow, currency,
   * treeOf(bidder), now)` to, hands it to `follow`, whose reply carries the id
   * `followId` when the assembler accepted it, and records the pending auction
   * in that case only. The reply always gets the contract address and the block.
   */
  method RegisterAuction(store: PendingBids, cfg: Config, initial: int, currency: Currency, buyItNow: int,
                         step: int, end: int, description: string, block: Block, bidder: string,
                         treeOf: string -> string, p2s: string, followId: Option<string>)
    returns (res: FollowResult, request: Request)
    modifies store
    ensures AuctionRequest(cfg, initial, currency, buyItNow, step, end, description, block, bidder, treeOf(bidder),
                           p2s, request)
    ensures res == FollowResult(followId, p2s, block)
    ensures store.records == old(store.records)
              + (if followId.Some? then [AuctionRecord(followId.value, initial, currency)] else [])
  {
    var tree := treeOf(bidder);
    request := BuildAuctionRequest(cfg, initial, currency, buyItNow, step, end, description, block, bidder, tree, p2s);
    if followId.Some? {
      store.Add(AuctionRecord(followId.value, initial, currency));
    }
    res := FollowResult(followId, p2s, block);
  }

  // ---------------------------------------------------------------- newAuctionHelper

  /**
   * The funds a Yoroi wallet must send to open the auction: the initial ERG,
   * `amount` of the token being sold, and the currency's initial amount; where
   * two of these share a key, the later one counts.
   */
  function AuctionNeed(cfg: Config, selectedToken: string, amount: int, currency: Currency): (need: map<string, int>)
  {
    var keys := {"ERG", selectedToken} + (if |currency.id| > 0 then {currency.id} else {});
    map k | k in keys ::
      if |currency.id| > 0 && k == currency.id then currency.initial
      else if k == selectedToken then amount
      else cfg.ergInitial
  }

  /** `newAuctionHelper`'s need map, built by successive key writes. */
  method YoroiAuctionNeed(cfg: Config, selectedToken: string, amount: int, currency: Currency)
    returns (need: map<string, int>)
    ensures need == AuctionNeed(cfg, selectedToken, amount, currency)
  {
    need := map["ERG" := cfg.ergInitial];
    need := need[selectedToken := amount];
    if |currency.id| > 0 {
      need := need[currency.id := currency.initial];
    }
  }

  /**
   * `newAuctionHelper`: registers the auction; an unanswered registration is
   * an error; otherwise the assembler flow shows the currency's initial amount
   * to pay, and the Yoroi flow sends the need map.
   */
  method NewAuctionHelper(store: PendingBids, cfg: Config, initial: int, currency: Currency, buyItNow: int,
                          step: int, end: int, description: string, selectedToken: string, amount: int,
                          block: Block, bidder: string, treeOf: string -> string, p2s: string,
                          followId: Option<string>, assembler: bool, yoroi: bool)
    returns (outcome: Result<HelperOutcome, string>)
    modifies store
    ensures followId.None? ==> outcome == Failure(AssemblerUnreachable) && store.records == old(store.records)
    ensures followId.Some? ==>
      && store.records == old(store.records) + [AuctionRecord(followId.value, initial, currency)]
      && outcome == Success(
           if assembler then AssemblerModal(p2s, currency.initial, true, currency.name)
           else if yoroi then YoroiSend(AuctionNeed(cfg, selectedToken, amount, currency), p2s, block)
           else NoAction)
  {
    var r, request := RegisterAuction(store, cfg, initial, currency, buyItNow, step, end, description, block,
                                      bidder, treeOf, p2s, followId);
    if r.id.None? {
      return Failure(AssemblerUnreachable);
    }
    if assembler {
      outcome := Success(AssemblerModal(r.address, currency.initial, true, currency.name));
    } else if yoroi {
      var need := YoroiAuctionNeed(cfg, selectedToken, amount, currency);
      outcome := Success(YoroiSend(need, r.address, r.block));
    } else {
      outcome := Success(NoAction);
    }
  }
}
