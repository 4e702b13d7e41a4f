/**
 * Placing a bid on an auction box: the bid contract instantiated for the box
 * being spent, the anti-snipe end-time rule, the replacement auction box and
 * the refund to the previous bidder, the funding request, the pending-bid
 * record, and the helper that turns a registration into a wallet action.
 */
module NewBid {
  import opened Wrappers
  import opened Encoding
  import opened Template
  import opened Ledger

  // ---------------------------------------------------------------- contract template

  // The bid contract text, cut at its five placeholders.
  const BidText0 :=
      "{\n"
    + "  val userAddress = PK(\""

  const BidText1 :=
      "\")\n"
    + "  val bidAmount = "

  const BidText2 :=
      "L\n"
    + "  val currencyId = " + "fromBase64(\""

  const BidText3 :=
      "\")\n"
    + "  val placeBid = {\n"
    + "    INPUTS(INPUTS.size - 1)." + "id == fromBase64(\""

  const BidLine16 := "      OUTPUTS(0)." + "R5[Coll[Byte]].get == " + "userAddress.propBytes && \n"

  const BidLine17 := "      ((currencyId.size == 0 " + "&& OUTPUTS(0).value == " + "bidAmount) ||\n"

  const BidLine18 := "         (OUTPUTS(0)." + "tokens(1)._1 == currencyId && " + "OUTPUTS(0).tokens(1)._2 == " + "bidAmount))\n"

  const BidLine20 := "  val returnFunds = {\n"

  const BidLine21 := "    val total = INPUTS." + "fold(0L, {(x:Long, b:Box) => " + "x + b.value}) - 2000000\n"

  const BidLine22 := "    OUTPUTS(0).value >= total " + "&& OUTPUTS(0)." + "propositionBytes == " + "userAddress.propBytes && " + "OUTPUTS.size == 2\n"

  const BidText4 :=
      "\") &&\n"
    + BidLine16
    + BidLine17
    + BidLine18
    + "  }\n"
    + BidLine20
    + BidLine21
    + BidLine22
    + "  }\n"
    + "  sigmaProp((placeBid || " + "returnFunds) && HEIGHT < "

  const BidText5 :=
      "L)\n"
    + "}"

  // The text between the placeholders holds no `$`. The fact is stated piece by
  // piece, one small lemma per line or block, and then combined: checking a
  // long string literal character by character in one go is costly for the
  // verifier, while each short piece is checked at once. For the same reason the
  // template constants are cut into pieces of at most about thirty characters,
  // some in the middle of a line, and named after the source line they hold.

  lemma BidLine16Plain()
    ensures '$' !in BidLine16
  {
  }

  lemma BidLine17Plain()
    ensures '$' !in BidLine17
  {
  }

  lemma BidLine18Plain()
    ensures '$' !in BidLine18
  {
  }

  lemma BidLine20Plain()
    ensures '$' !in BidLine20
  {
  }

  lemma BidLine21Plain()
    ensures '$' !in BidLine21
  {
  }

  lemma BidLine22Plain()
    ensures '$' !in BidLine22
  {
  }

  lemma BidText4Plain()
    ensures '$' !in BidText4
  {
    BidLine16Plain();
    BidLine17Plain();
    BidLine18Plain();
    BidLine20Plain();
    BidLine21Plain();
    BidLine22Plain();
  }

  lemma BidTexts0To2Plain()
    ensures '$' !in BidText0 && '$' !in BidText1 && '$' !in BidText2
  {
  }

  lemma BidTexts3And5Plain()
    ensures '$' !in BidText3 && '$' !in BidText5
  {
  }

  /** The text around the placeholders holds no `$`, so each placeholder occurs once. */
  lemma BidTextPlain()
    ensures Plain(BidTexts)
  {
    BidTexts0To2Plain();
    BidTexts3And5Plain();
    BidText4Plain();
  }

  /** The text of the bid contract cut at its five placeholders. */
  const BidTexts := [BidText0, BidText1, BidText2, BidText3, BidText4, BidText5]

  /** The placeholders in the order they appear in the text. */
  const BidPlaceholders := ["$userAddress", "$bidAmount", "$currencyId", "$auctionId", "$timestamp"]

  /** The bid contract template. */
  const BidTemplate := Fill(BidTexts, BidPlaceholders)

  /** The five literals `getBidP2s` substitutes, in the form they take in the text. */
  datatype BidLiterals = BidLiterals(
    userAddress: string, bidAmount: string, auctionId: string, currencyId: string, timestamp: string)

  /** The literals in the order of the placeholders they stand for in the text. */
  function BidFillers(l: BidLiterals): (fs: seq<string>)
    ensures |fs| == |BidPlaceholders|
  {
    [l.userAddress, l.bidAmount, l.currencyId, l.auctionId, l.timestamp]
  }

  /** The bidding currency: the id of the second token, or empty for a native-coin auction. */
  function BidCurrencyId(box: AuctionBox): (id: string)
    ensures |box.assets| <= 1 ==> id == ""
    ensures |box.assets| > 1 ==> id == box.assets[1].tokenId
  {
    if |box.assets| > 1 then box.assets[1].tokenId else ""
  }

  /**
   * The literals for bid `bid` on `box` by the wallet address `addr` at wall-clock
   * time `now`: ids are hex-decoded and written in base64, integers in decimal.
   */
  function BidLiteralsOf(bid: int, box: AuctionBox, addr: string, now: int): (lits: BidLiterals)
    ensures |box.assets| <= 1 ==> lits.currencyId == ""
    ensures '$' !in addr ==> Plain(BidFillers(lits))
  {
    BidLiterals(
      addr,
      Decimal(bid),
      Base64Encode(HexToBytes(box.boxId)),
      Base64Encode(HexToBytes(BidCurrencyId(box))),
      Decimal(now))
  }

  /**
   * The five `replace` calls of `getBidP2s`, in the order it makes them: the
   * auction id before the currency id, unlike their order in the text.
   */
  function BidSubstitute(template: string, l: BidLiterals): string
  {
    ReplaceEach(template,
      ["$userAddress", "$bidAmount", "$auctionId", "$currencyId", "$timestamp"],
      [l.userAddress, l.bidAmount, l.auctionId, l.currencyId, l.timestamp])
  }

  /** `getBidP2s`: the bid contract text handed to the compiler. */
  function BidScript(bid: int, box: AuctionBox, addr: string, now: int): (script: string)
    ensures '\n' !in script
  {
    EscapeNewlines(BidSubstitute(BidTemplate, BidLiteralsOf(bid, box, addr, now)))
  }

  // One lemma per `replace` call of `getBidP2s`, each on the text the previous call left.

  lemma ReplaceUserAddress(texts: seq<string>, u: string)
    requires |texts| == 6 && Plain(texts)
    ensures Replace(Fill(texts, BidPlaceholders), "$userAddress", u)
         == Fill(texts, [u, "$bidAmount", "$currencyId", "$auctionId", "$timestamp"])
  {
    ReplaceAt(texts, BidPlaceholders, 0, u);
    assert BidPlaceholders[0 := u] == [u, "$bidAmount", "$currencyId", "$auctionId", "$timestamp"];
  }

  lemma ReplaceBidAmount(texts: seq<string>, u: string, a: string)
    requires |texts| == 6 && Plain(texts) && '$' !in u
    ensures Replace(Fill(texts, [u, "$bidAmount", "$currencyId", "$auctionId", "$timestamp"]), "$bidAmount", a)
         == Fill(texts, [u, a, "$currencyId", "$auctionId", "$timestamp"])
  {
    var fs := [u, "$bidAmount", "$currencyId", "$auctionId", "$timestamp"];
    assert Plain(fs[..1]) by { assert fs[..1] == [u]; }
    ReplaceAt(texts, fs, 1, a);
    assert fs[1 := a] == [u, a, "$currencyId", "$auctionId", "$timestamp"];
  }

  /** `$auctionId` is replaced while `$currencyId`, before it in the text, is still in place. */
  lemma ReplaceAuctionId(texts: seq<string>, u: string, a: string, i: string)
    requires |texts| == 6 && Plain(texts) && '$' !in u && '$' !in a
    ensures Replace(Fill(texts, [u, a, "$currencyId", "$auctionId", "$timestamp"]), "$auctionId", i)
         == Fill(texts, [u, a, "$currencyId", i, "$timestamp"])
  {
    var fs := [u, a, "$currencyId", "$auctionId", "$timestamp"];
    assert Plain(fs[..2]) by { assert fs[..2] == [u, a]; }
    ReplaceAfter(texts, fs, 2, i);
    assert fs[3 := i] == [u, a, "$currencyId", i, "$timestamp"];
  }

  lemma ReplaceCurrencyId(texts: seq<string>, u: string, a: string, i: string, c: string)
    requires |texts| == 6 && Plain(texts) && '$' !in u && '$' !in a
    ensures Replace(Fill(texts, [u, a, "$currencyId", i, "$timestamp"]), "$currencyId", c)
         == Fill(texts, [u, a, c, i, "$timestamp"])
  {
    var fs := [u, a, "$currencyId", i, "$timestamp"];
    assert Plain(fs[..2]) by { assert fs[..2] == [u, a]; }
    ReplaceAt(texts, fs, 2, c);
    assert fs[2 := c] == [u, a, c, i, "$timestamp"];
  }

  lemma ReplaceTimestamp(texts: seq<string>, u: string, a: string, i: string, c: string, t: string)
    requires |texts| == 6 && Plain(texts) && '$' !in u && '$' !in a && '$' !in c && '$' !in i
    ensures Replace(Fill(texts, [u, a, c, i, "$timestamp"]), "$timestamp", t) == Fill(texts, [u, a, c, i, t])
  {
    var fs := [u, a, c, i, "$timestamp"];
    assert Plain(fs[..4]) by { assert fs[..4] == [u, a, c, i]; }
    ReplaceAt(texts, fs, 4, t);
    assert fs[4 := t] == [u, a, c, i, t];
  }

  /**
   * On any text cut like the bid template, each of the five placeholders is
   * replaced once, in its own place, by its literal: the auction id too,
   * although `$currencyId` comes before it in the text and is replaced after it.
   */
  lemma BidSubstitution(texts: seq<string>, l: BidLiterals)
    requires |texts| == 6 && Plain(texts) && Plain(BidFillers(l))
    ensures BidSubstitute(Fill(texts, BidPlaceholders), l) == Fill(texts, BidFillers(l))
  {
    var fs := BidFillers(l);
    assert '$' !in fs[0] && '$' !in fs[1] && '$' !in fs[2] && '$' !in fs[3];
    ReplaceUserAddress(texts, l.userAddress);
    ReplaceBidAmount(texts, l.userAddress, l.bidAmount);
    ReplaceAuctionId(texts, l.userAddress, l.bidAmount, l.auctionId);
    ReplaceCurrencyId(texts, l.userAddress, l.bidAmount, l.auctionId, l.currencyId);
    ReplaceTimestamp(texts, l.userAddress, l.bidAmount, l.auctionId, l.currencyId, l.timestamp);
    var pats := ["$userAddress", "$bidAmount", "$auctionId", "$currencyId", "$timestamp"];
    var vals := [l.userAddress, l.bidAmount, l.auctionId, l.currencyId, l.timestamp];
    var s0 := Fill(texts, BidPlaceholders);
    var s1 := Replace(s0, pats[0], vals[0]);
    var s2 := Replace(s1, pats[1], vals[1]);
    var s3 := Replace(s2, pats[2], vals[2]);
    var s4 := Replace(s3, pats[3], vals[3]);
    var s5 := Replace(s4, pats[4], vals[4]);
    calc {
      ReplaceEach(s0, pats, vals);
      ReplaceEach(s1, pats[1..], vals[1..]);
      ReplaceEach(s2, pats[2..], vals[2..]);
      { assert pats[1..][1..] == pats[2..] && vals[1..][1..] == vals[2..]; }
      ReplaceEach(s3, pats[3..], vals[3..]);
      { assert pats[2..][1..] == pats[3..] && vals[2..][1..] == vals[3..]; }
      ReplaceEach(s4, pats[4..], vals[4..]);
      { assert pats[3..][1..] == pats[4..] && vals[3..][1..] == vals[4..]; }
      ReplaceEach(s5, pats[5..], vals[5..]);
      { assert pats[4..][1..] == pats[5..] && vals[4..][1..] == vals[5..]; }
      s5;
    }
  }

  /** The bid template's placeholders are replaced once each, in place. */
  lemma BidScriptSplices(bid: int, box: AuctionBox, addr: string, now: int)
    requires '$' !in addr
    ensures BidScript(bid, box, addr, now) == EscapeNewlines(Fill(BidTexts, BidFillers(BidLiteralsOf(bid, box, addr, now))))
  {
    BidTextPlain();
    BidSubstitution(BidTexts, BidLiteralsOf(bid, box, addr, now));
  }

  lemma BidPlaceholdersMarked()
    ensures Placeholders(BidPlaceholders)
  {
  }

  /**
   * When the wallet address holds no `$`, the compiled text holds no `$` at all,
   * so no placeholder is left, and it is a single line.
   */
  lemma BidScriptComplete(bid: int, box: AuctionBox, addr: string, now: int)
    requires '$' !in addr
    ensures var script := BidScript(bid, box, addr, now);
      && '$' !in script && '\n' !in script
      && forall i :: 0 <= i < |BidPlaceholders| ==> !Occurs(script, BidPlaceholders[i])
  {
    BidScriptSplices(bid, box, addr, now);
    BidTextPlain();
    EscapedFillPlain(BidTexts, BidFillers(BidLiteralsOf(bid, box, addr, now)));
    BidPlaceholdersMarked();
    NoPlaceholderLeft(BidScript(bid, box, addr, now), BidPlaceholders);
  }

  // ---------------------------------------------------------------- the placeBid guard

  /**
   * The constants of an instantiated bid contract, as the contract reads them
   * from the substituted literals: the bidder's proposition bytes, the bid,
   * and the two ids written in base64, and the deadline.
   */
  datatype BidConstants = BidConstants(
    propBytes: seq<byte>,
    bidAmount: Option<int>,
    auctionId: Option<seq<byte>>,
    currencyId: Option<seq<byte>>,
    timestamp: Option<int>)

  /**
   * Reading the literals back: `PK(addr).propBytes` is the address's ergoTree,
   * `fromBase64` decodes, and an integer literal parses as decimal.
   */
  function ReadBidConstants(l: BidLiterals, treeOf: string -> string): (k: BidConstants)
    ensures k.propBytes == HexToBytes(treeOf(l.userAddress))
  {
    BidConstants(
      HexToBytes(treeOf(l.userAddress)),
      ParseDecimal(l.bidAmount),
      Base64Decode(l.auctionId),
      Base64Decode(l.currencyId),
      ParseDecimal(l.timestamp))
  }

  /**
   * The `placeBid` conjunct of the bid contract together with its deadline
   * conjunct `HEIGHT < timestamp`: the auction box is the last input, the new
   * auction box names the bidder in R5, and it carries the bid either as its
   * value (no currency id) or as its second token.
   */
  predicate PlaceBid(k: BidConstants, height: int, inputs: seq<string>, outputs: seq<BoxSpec>)
  {
    && |inputs| > 0 && k.auctionId == Some(HexToBytes(inputs[|inputs| - 1]))
    && |outputs| > 0 && outputs[0].registers.Some?
    && CollBytes(outputs[0].registers.value.R5) == Some(k.propBytes)
    && k.bidAmount.Some? && k.currencyId.Some?
    && (|| (|k.currencyId.value| == 0 && outputs[0].value == k.bidAmount.value)
        || (&& |outputs[0].assets| > 1
            && HexToBytes(outputs[0].assets[1].tokenId) == k.currencyId.value
            && outputs[0].assets[1].amount == k.bidAmount.value))
    && k.timestamp.Some? && height < k.timestamp.value
  }

  /**
   * The contract reads back exactly what the client wrote: the bidder's tree,
   * the bid, the hex-decoded auction box id and currency id, and the deadline.
   */
  lemma ReadBidConstantsRoundTrip(bid: int, box: AuctionBox, addr: string, now: int, treeOf: string -> string)
    ensures ReadBidConstants(BidLiteralsOf(bid, box, addr, now), treeOf)
         == BidConstants(HexToBytes(treeOf(addr)), Some(bid), Some(HexToBytes(box.boxId)),
                         Some(HexToBytes(BidCurrencyId(box))), Some(now))
  {
    Base64RoundTrip(HexToBytes(box.boxId));
    Base64RoundTrip(HexToBytes(BidCurrencyId(box)));
    DecimalRoundTrip(bid);
    DecimalRoundTrip(now);
  }

  // ---------------------------------------------------------------- registerBid

  /** The anti-snipe rule: a bid placed with at most `extendThreshold` left extends the deadline. */
  function ExtendedEnd(cfg: Config, box: AuctionBox, block: Block): (end: int)
    ensures box.endTime - block.timestamp <= cfg.extendThreshold ==> end == box.endTime + cfg.extendNum
    ensures box.endTime - block.timestamp > cfg.extendThreshold ==> end == box.endTime
  {
    if box.endTime - block.timestamp <= cfg.extendThreshold then box.endTime + cfg.extendNum else box.endTime
  }

  /**
   * The request `registerBid` hands to the assembler for bid `bid` on `box`,
   * by the wallet address `ourAddr` whose ergoTree is `userTree`, paying into
   * the compiled bid contract `p2s`.
   */
  predicate BidRequest(cfg: Config, bid: int, box: AuctionBox, ourAddr: string, userTree: string,
                       p2s: string, nextEndTime: int, request: Request)
    requires |box.assets| >= 1
  {
    var regs := box.additionalRegisters;
    var tx := request.txSpec;
    && request.address == p2s && request.returnTo == ourAddr
    && tx.fee == cfg.txFee
    && tx.inputs == [UserInputs, box.boxId]
    && tx.dataInputs == [cfg.dataInputBoxId]
    && |tx.requests| == 2
    && tx.requests[0].address == cfg.auctionAddress
    && tx.requests[0].registers
       == Some(Registers(regs.R4, EncodedHex(userTree), regs.R6, EncodedNum(nextEndTime), regs.R8, regs.R9))
    && tx.requests[1].address == box.bidder
    && tx.requests[1].registers == None
    && (if |box.assets| == 1 then
          && tx.requests[0].value == bid
          && tx.requests[0].assets == [box.assets[0]]
          && tx.requests[1].value == box.value
          && tx.requests[1].assets == []
          && request.startWhen == map["erg" := bid + cfg.txFee]
        else
          && tx.requests[0].value == box.value
          && tx.requests[0].assets == [box.assets[0], Token(box.assets[1].tokenId, bid)]
          && tx.requests[1].value == -1
          && tx.requests[1].assets == [box.assets[1]]
          && request.startWhen == map[box.assets[1].tokenId := bid])
  }

  /**
   * Builds the replacement auction box, the refund to the previous bidder and
   * the funding request; the box's registers are copied from the explorer
   * except R5 (the new bidder) and R7 (the possibly extended deadline).
   */
  method BuildBidRequest(cfg: Config, bid: int, box: AuctionBox, block: Block, ourAddr: string,
                         userTree: string, p2s: string)
    returns (request: Request, nextEndTime: int)
    requires |box.assets| >= 1
    ensures nextEndTime == ExtendedEnd(cfg, box, block)
    ensures BidRequest(cfg, bid, box, ourAddr, userTree, p2s, nextEndTime, request)
  {
    nextEndTime := box.endTime;
    if box.endTime - block.timestamp <= cfg.extendThreshold {
      nextEndTime := nextEndTime + cfg.extendNum;
    }

    var auctionErg := bid;
    var start := map["erg" := bid + cfg.txFee];
    var auctionAssets := [Token(box.assets[0].tokenId, box.assets[0].amount)];
    var returnBidder := BoxSpec(box.bidder, box.value, [], None);
    if |box.assets| > 1 {
      start := map[];
      start := start[box.assets[1].tokenId := bid];
      auctionErg := box.value;
      auctionAssets := [Token(box.assets[0].tokenId, box.assets[0].amount), Token(box.assets[1].tokenId, bid)];
      returnBidder := BoxSpec(box.bidder, -1, [Token(box.assets[1].tokenId, box.assets[1].amount)], None);
    }

    var regs := box.additionalRegisters;
    var newBox := BoxSpec(cfg.auctionAddress, auctionErg, auctionAssets,
      Some(Registers(regs.R4, EncodedHex(userTree), regs.R6, EncodedNum(nextEndTime), regs.R8, regs.R9)));
    request := Request(p2s, ourAddr, start,
      TxSpec([newBox, returnBidder], cfg.txFee, [UserInputs, box.boxId], [cfg.dataInputBoxId]));
  }

  /** Expanding `$userIns` keeps the auction box as the last input. */
  lemma AuctionBoxLastInput(box: AuctionBox, userIns: seq<string>)
    requires box.boxId != UserInputs
    ensures var inputs := ExpandInputs([UserInputs, box.boxId], userIns);
      |inputs| > 0 && inputs[|inputs| - 1] == box.boxId
  {
  }

  /**
   * The box `registerBid` builds satisfies the `placeBid` guard of the contract
   * it pays into, whichever funding boxes the assembler puts in place of
   * `$userIns`, as long as the chain height is below the contract's deadline.
   */
  lemma BidRequestPassesPlaceBid(cfg: Config, bid: int, box: AuctionBox, ourAddr: string, treeOf: string -> string,
                                 p2s: string, nextEndTime: int, request: Request, now: int, height: int,
                                 userIns: seq<string>)
    requires |box.assets| >= 1 && box.boxId != UserInputs
    requires BidRequest(cfg, bid, box, ourAddr, treeOf(ourAddr), p2s, nextEndTime, request)
    requires height < now
    ensures PlaceBid(ReadBidConstants(BidLiteralsOf(bid, box, ourAddr, now), treeOf), height,
                     ExpandInputs(request.txSpec.inputs, userIns), request.txSpec.requests)
  {
    AuctionBoxLastInput(box, userIns);
    ReadBidConstantsRoundTrip(bid, box, ourAddr, now, treeOf);
  }

  const BidPlacedMsg := "Your bid is being placed, see 'My Bids' section for more details."

  /** The pending-bid record `registerBid` stores once the assembler accepted the request. */
  function BidRecord(cfg: Config, id: string, bid: int, box: AuctionBox, nextEndTime: int): (r: PendingBid)
    requires |box.assets| >= 1
    ensures r.info.boxId == Some(box.id) && r.info.prevEndTime == Some(box.endTime)
    ensures r.info.shouldExtend == Some(nextEndTime == box.endTime)
    ensures r.info.amount == bid && !r.info.isFirst && r.info.status == PendingMining
  {
    PendingBid(id, BidPlacedMsg, BidInfo(
      token := Some(box.assets[0]),
      boxId := Some(box.id),
      txId := None,
      tx := None,
      prevEndTime := Some(box.endTime),
      shouldExtend := Some(nextEndTime == box.endTime),
      status := PendingMining,
      amount := bid,
      currency := if box.currency in cfg.supportedCurrencies then Some(cfg.supportedCurrencies[box.currency]) else None,
      isFirst := false))
  }

  /**
   * The record's `shouldExtend` flag is set exactly when the deadline was left
   * as it was: when more than `extendThreshold` was left, or the extension is zero.
   */
  lemma ShouldExtendMeansUnchanged(cfg: Config, id: string, bid: int, box: AuctionBox, block: Block)
    requires |box.assets| >= 1
    ensures BidRecord(cfg, id, bid, box, ExtendedEnd(cfg, box, block)).info.shouldExtend
            == Some(box.endTime - block.timestamp > cfg.extendThreshold || cfg.extendNum == 0)
  {
  }

  /**
   * `registerBid`: builds the request paying into `p2s`, the address the
   * assembler compiled the bid contract `BidScript(bid, box, ourAddr, now)` to
   * (`treeOf` is the wallet address's ergoTree), hands it to `follow`, whose
   * reply carries the id `followId` when the assembler accepted it, and records
   * the pending bid in that case only. The reply always gets the contract
   * address and the block.
   */
  method RegisterBid(store: PendingBids, cfg: Config, bid: int, box: AuctionBox, block: Block, ourAddr: string,
                     treeOf: string -> string, p2s: string, followId: Option<string>)
    returns (res: FollowResult, request: Request, ghost nextEndTime: int)
    requires |box.assets| >= 1
    modifies store
    ensures nextEndTime == ExtendedEnd(cfg, box, block)
    ensures BidRequest(cfg, bid, box, ourAddr, treeOf(ourAddr), p2s, nextEndTime, request)
    ensures res == FollowResult(followId, p2s, block)
    ensures store.records == old(store.records)
              + (if followId.Some? then [BidRecord(cfg, followId.value, bid, box, nextEndTime)] else [])
  {
    var userTree := treeOf(ourAddr);
    var end;
    request, end := BuildBidRequest(cfg, bid, box, block, ourAddr, userTree, p2s);
    nextEndTime := end;
    if followId.Some? {
      store.Add(BidRecord(cfg, followId.value, bid, box, end));
    }
    res := FollowResult(followId, p2s, block);
  }

  // ---------------------------------------------------------------- bidHelper

  /**
   * The funds a Yoroi wallet must send for bid `bid` on `box`: the bid and the
   * fee in ERG, or for a token auction the bid in the token and a fixed
   * 2000000 nanoERG, the token's entry winning should its id be `ERG`.
   */
  function BidNeed(bid: int, box: AuctionBox, txFee: int): (need: map<string, int>)
  {
    if |box.assets| > 1 then
      var keys := {"ERG", box.assets[1].tokenId};
      map k | k in keys :: if k == box.assets[1].tokenId then bid else 2000000
    else map["ERG" := bid + txFee]
  }

  /** `bidHelper`'s need map, built by successive key writes. */
  method YoroiBidNeed(bid: int, box: AuctionBox, txFee: int) returns (need: map<string, int>)
    ensures need == BidNeed(bid, box, txFee)
  {
    need := map["ERG" := bid + txFee];
    if |box.assets| > 1 {
      need := map["ERG" := 2000000];
      need := need[box.assets[1].tokenId := bid];
    }
  }

  /**
   * The need map asks for exactly what the request waits for before it is
   * assembled: the bid plus the fee in ERG for a native-coin auction, and the
   * bid in the auction's token (with a fixed 2000000 nanoERG for the fee and
   * the box) for a token auction.
   */
  lemma NeedMatchesStart(cfg: Config, bid: int, box: AuctionBox, ourAddr: string, userTree: string,
                         p2s: string, nextEndTime: int, request: Request)
    requires |box.assets| >= 1
    requires BidRequest(cfg, bid, box, ourAddr, userTree, p2s, nextEndTime, request)
    ensures var need := BidNeed(bid, box, cfg.txFee);
      |box.assets| == 1 ==> need.Keys == {"ERG"} && need["ERG"] == request.startWhen["erg"]
    ensures var need := BidNeed(bid, box, cfg.txFee);
      |box.assets| > 1 ==>
        && need.Keys == {"ERG"} + request.startWhen.Keys
        && (forall t :: t in request.startWhen && t != "ERG" ==> need[t] == request.startWhen[t])
        && (box.assets[1].tokenId != "ERG" ==> need["ERG"] == 2000000)
  {
  }

  /**
   * `bidHelper`: registers the bid; an unanswered registration is an error;
   * otherwise the assembler flow shows the amount to pay (with the fee for a
   * native-coin auction), and the Yoroi flow sends the need map.
   */
  method BidHelper(store: PendingBids, cfg: Config, bid: int, box: AuctionBox, block: Block, ourAddr: string,
                   treeOf: string -> string, p2s: string, followId: Option<string>, assembler: bool, yoroi: bool)
    returns (outcome: Result<HelperOutcome, string>)
    requires |box.assets| >= 1
    modifies store
    ensures followId.None? ==> outcome == Failure(AssemblerUnreachable) && store.records == old(store.records)
    ensures followId.Some? ==>
      && store.records == old(store.records) + [BidRecord(cfg, followId.value, bid, box, ExtendedEnd(cfg, box, block))]
      && outcome == Success(
           if assembler then AssemblerModal(p2s, bid + (if |box.assets| == 1 then cfg.txFee else 0), false, box.currency)
           else if yoroi then YoroiSend(BidNeed(bid, box, cfg.txFee), p2s, block)
           else NoAction)
  {
    var r, request, end := RegisterBid(store, cfg, bid, box, block, ourAddr, treeOf, p2s, followId);
    if r.id.None? {
      return Failure(AssemblerUnreachable);
    }
    if assembler {
      outcome := Success(AssemblerModal(r.address, bid + (if |box.assets| == 1 then cfg.txFee else 0), false, box.currency));
    } else if yoroi {
      var need := YoroiBidNeed(bid, box, cfg.txFee);
      outcome := Success(YoroiSend(need, r.address, r.block));
    } else {
      outcome := Success(NoAction);
    }
  }
}
