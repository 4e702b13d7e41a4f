# Auction request builders

This project models in Dafny the client-side request builders of an Ergo
auction house. They live in `src/auction/newBidAssm.js` and
`src/auction/newAuctionAssm.js`.

Placing a bid and opening an auction follow the same pattern:

1. Fill a small ErgoScript contract template with literals: the user's
   address or ergoTree, amounts, base64 ids and a wall-clock deadline.
2. Escape the template's newlines and have the assembler service compile it
   to a pay-to-script address (`p2s`).
3. Build the transaction request the assembler is to carry out once the user
   has paid into that address (`startWhen`).
4. Hand the request to the assembler (`follow`). If the assembler accepted it,
   record a pending entry in the client's list.
5. Turn the registration into a wallet action: the assembler modal or a
   Yoroi payment.

Modules:

- `Wrappers`: Option and Result.
- `Encoding`: hex decoding with its length, UTF-8 text bytes, and base64
  and decimal encoding and decoding with their round trips.
- `Template`: JavaScript's first-occurrence `String.prototype.replace`, and
  a chain of such calls. It also models a template cut at its placeholders
  (`Fill`), and the newline escaping done by `replaceAll('\n', '\\n')`.
- `Ledger`: the request, box, register and pending-record values, and the
  pending-bid list as a class whose records are only appended.
- `NewBid`: `registerBid`, `getBidP2s` and `bidHelper`.
- `NewAuction`: `registerAuction`, `getAuctionP2s` and `newAuctionHelper`.

Four main results are proved:

- The placeholder replacements put each literal in its own place and leave
  no placeholder behind. For the bid contract this holds even though
  `$auctionId` is replaced before `$currencyId`, which comes first in the text.
- The box each builder constructs satisfies the `placeBid` or `startAuction`
  guard of the contract compiled from the same inputs. The guard reads its
  constants back from the literals through `fromBase64` and numeric parsing.
- The anti-snipe rule extends the deadline only when at most
  `extendThreshold` is left. The pending record's `shouldExtend` flag is true
  exactly when the deadline was left unchanged.
- The need maps built by successive key writes equal declarative
  definitions, and a bid's need map matches the request's `startWhen`.

Remote results are parameters of the model:

- the current block (`currentBlock`);
- the compiled address `p2s`;
- the id in the assembler's reply (`followId`, `None` when it has none);
- the wallet address and its ergoTree (`treeOf`);
- the wall-clock time (`moment().valueOf()`, `now`);
- the wallet kind (`isAssembler`, `isYoroi`).

The code is followed where it differs from its prose description. The bid
record's `shouldExtend` is `nextEndTime === box.endTime`. That flag is true
when the deadline was NOT extended, not when it was.
`NewBid.ShouldExtendMeansUnchanged` states this polarity.

## Model

| member | source | states |
|---|---|---|
| Encoding.HexToBytes | src/auction/newBidAssm.js:134-137 | `Buffer.from(s, 'hex')` yields at most one byte per two characters. |
| Encoding.Base64Encode | src/auction/newAuctionAssm.js:124-125 | `toString('base64')` yields four base64 or padding characters per started group of three bytes. |
| Encoding.Utf8 | src/auction/newAuctionAssm.js:82 | The R9 text's bytes number between one and four per character, exactly one per character for ASCII text. |
| Encoding.HexToBytesLength | src/auction/newBidAssm.js:134 | Decoding a hex id of even length gives half as many bytes as it has digits. |
| Encoding.Base64RoundTrip | src/auction/newBidAssm.js:134-137 | `fromBase64` of the base64 text of any byte string gives that byte string back. This is how the contract recovers the box and currency ids. |
| Encoding.DecimalRoundTrip | src/auction/newBidAssm.js:141 | Any integer written in decimal as a script literal parses back to the same integer, negatives included. |
| Template.ReplaceFirst | src/auction/newBidAssm.js:140-144 | `replace` with a string pattern changes the first occurrence of the pattern into the value and keeps all text before and after it. |
| Template.ReplaceAbsent | src/auction/newAuctionAssm.js:128-134 | `replace` leaves a text without the pattern unchanged. |
| Template.ReplaceAt | src/auction/newAuctionAssm.js:128-134 | In a template whose texts and earlier fillers hold no `$`, replacing the k-th placeholder puts the value in the k-th slot and changes nothing else. |
| Template.ReplaceAfter | src/auction/newBidAssm.js:142-143 | The k+1-th placeholder can be replaced while the k-th is still present: the earlier placeholder does not catch the replacement. |
| Template.ReplaceInOrder | src/auction/newAuctionAssm.js:127-134 | Replacing every placeholder once, in text order, yields the template with each filler in its placeholder's slot. |
| Template.EscapeNewlines | src/auction/newBidAssm.js:145 | The escaped text has no line break, adds only `\` and `n`, and equals the input when there was no line break. |
| Template.NoPlaceholderLeft | src/auction/newBidAssm.js:139-144 | Text without `$` contains none of the `$`-led placeholders. |
| Ledger.ExpandInputs | src/auction/newBidAssm.js:102 | Expanding `$userIns` leaves a list without it unchanged and keeps any other last input last. |
| Ledger.PendingBids.Add | src/auction/newBidAssm.js:125 | `addAssemblerBid` appends the record and keeps the earlier records. |
| NewBid.BidCurrencyId | src/auction/newBidAssm.js:135-136 | The bid currency is the second token's id when the box has more than one asset, and empty otherwise. |
| NewBid.BidLiteralsOf | src/auction/newBidAssm.js:133-137 | A native-coin auction gets an empty currency literal. With a `$`-free address no literal contains `$`. |
| NewBid.BidScript | src/auction/newBidAssm.js:139-145 | The text handed to `p2s` is a single line. |
| NewBid.BidSubstitution | src/auction/newBidAssm.js:139-144 | The five replace calls, made in the code's order, put each literal in its own slot of any `$`-free template of this shape, including the out-of-order `$auctionId`. |
| NewBid.BidScriptSplices | src/auction/newBidAssm.js:10-25 | The compiled bid text is the template with the address, bid, currency id, auction id and deadline spliced into their slots, then newline-escaped. |
| NewBid.BidScriptComplete | src/auction/newBidAssm.js:139-146 | The compiled bid text holds no `$` and no placeholder, and is a single line. |
| NewBid.ReadBidConstantsRoundTrip | src/auction/newBidAssm.js:11-15 | The bid contract reads back exactly what the client wrote: the bidder's tree bytes, the bid, the auction box id, the currency id (empty for a native-coin auction) and the deadline. |
| NewBid.ExtendedEnd | src/auction/newBidAssm.js:34-37 | A bid placed with at most `extendThreshold` left moves the end by `extendNum`; otherwise the end is kept. |
| NewBid.PlaceBid | src/auction/newBidAssm.js:14-19 | Defines the `placeBid` guard with the `HEIGHT < $timestamp` deadline of line 24: the last input is the auction box, R5 of the first output is the bidder's tree, and the bid is the box value (no currency) or the second token's amount in the currency. |
| NewBid.BuildBidRequest | src/auction/newBidAssm.js:34-105 | Gives the extended end time and the whole request. For a native-coin auction: the box worth the bid, the refund of the box value to the previous bidder, and a wait for bid + fee in erg. For a token auction: the bid as second token, the refund of the previous token amount, and a wait for the bid in that token. In both, R5 is the new bidder, R7 is the new end, the other registers are copied, and the inputs are `$userIns` then the box. |
| NewBid.BidRequestPassesPlaceBid | src/auction/newBidAssm.js:15-18 | The built request satisfies the bid contract's `placeBid` and deadline for any expansion of `$userIns`: the auction box is the last input, R5 names the bidder, and the bid is the value or the second token. |
| NewBid.BidRecord | src/auction/newBidAssm.js:109-124 | The pending bid names the box and its previous end, flags an unchanged deadline, and is pending mining, not first, for the bid amount. |
| NewBid.ShouldExtendMeansUnchanged | src/auction/newBidAssm.js:35-37 | `shouldExtend` holds exactly when more than `extendThreshold` was left or the extension is zero. |
| NewBid.RegisterBid | src/auction/newBidAssm.js:27-131 | Builds the request, records the pending bid exactly when the assembler answered with an id, and returns the reply carrying `p2s` and the block. |
| NewBid.YoroiBidNeed | src/auction/newBidAssm.js:155-159 | The successive writes give the declarative need map: bid + fee in ERG, or for a token auction the bid in the token and 2000000 in ERG, the token winning on a key clash. |
| NewBid.NeedMatchesStart | src/auction/newBidAssm.js:40-55 | The Yoroi need map asks for what the request's `startWhen` waits for, with fixed ERG for a token auction. |
| NewBid.BidHelper | src/auction/newBidAssm.js:149-161 | No reply id is the "Could not contact the assembler service" error and records nothing. Otherwise the bid is recorded, and the outcome is the modal amount (bid, plus fee when there is one asset) or the Yoroi payment. |
| NewAuction.AuctionLiteralsOf | src/auction/newAuctionAssm.js:122-126 | No auction literal contains `$`, and an empty currency id gives an empty literal. |
| NewAuction.AuctionScript | src/auction/newAuctionAssm.js:127-135 | The text handed to `p2s` is a single line. |
| NewAuction.AuctionScriptSplices | src/auction/newAuctionAssm.js:11-33 | The compiled auction text is the template with all seven literals in their slots, then newline-escaped. |
| NewAuction.AuctionScriptComplete | src/auction/newAuctionAssm.js:127-136 | The compiled auction text holds no `$` and no placeholder, and is a single line. |
| NewAuction.ReadAuctionConstantsRoundTrip | src/auction/newAuctionAssm.js:12-17 | The auction contract reads back exactly what the client wrote: the seller's tree bytes, the initial price, the end, the step, the currency id, the buy-it-now price and the deadline. |
| NewAuction.StartAuction | src/auction/newAuctionAssm.js:18-27 | Defines the `startAuction` guard with the `HEIGHT < $timestamp` deadline of line 32: a token in the first output, R4 and R5 (defaulting to the first input's id) equal to the seller, R6 the (price, step) pair, R7 and R8 (defaulting to 0) the end and the buy-it-now price, and the currency as second token when one is set. |
| NewAuction.StartAuctionDefaults | src/auction/newAuctionAssm.js:20-25 | A box passing the guard with R4 or R5 unreadable names the first input's id as seller, with R7 or R8 unreadable has end or buy-it-now price 0, and always has a readable R6. |
| NewAuction.AuctionInfo | src/auction/newAuctionAssm.js:47 | The info text starts with the initial price written in decimal. |
| NewAuction.AuctionInfoRoundTrip | src/auction/newAuctionAssm.js:47 | The R9 info text splits back into the initial price, the block time and the whole description, commas in it included. |
| NewAuction.AuctionAssets | src/auction/newAuctionAssm.js:50-69 | The auction box holds the seller's token first, plus a `-1` slot for the currency exactly when a currency id is set. |
| NewAuction.BuildAuctionRequest | src/auction/newAuctionAssm.js:43-96 | The request has one box worth the inputs (`-1`). R4 and R5 hold the seller's tree, R6 holds (initial, step), then come the end, the buy-it-now price and the info text. It waits for the minimum ERG less the fee, plus 0 of the currency when one is set, with the currency's entry winning on key `erg`. |
| NewAuction.AuctionRequestPassesStartAuction | src/auction/newAuctionAssm.js:18-27 | The built box satisfies the auction contract's `startAuction` and deadline, whatever the first input is. |
| NewAuction.AuctionRecord | src/auction/newAuctionAssm.js:100-113 | The pending auction is first, pending mining, for the initial amount in the chosen currency, with no token and no box. |
| NewAuction.RegisterAuction | src/auction/newAuctionAssm.js:35-120 | Builds the request, records the pending auction exactly when the assembler answered with an id, and returns the reply carrying `p2s` and the block. |
| NewAuction.YoroiAuctionNeed | src/auction/newAuctionAssm.js:155-158 | The successive writes give the declarative need map. The currency's initial amount beats the token amount, which beats the ERG initial amount, on a key clash. |
| NewAuction.NewAuctionHelper | src/auction/newAuctionAssm.js:139-162 | No reply id is the error and records nothing. Otherwise the auction is recorded, and the outcome is the modal with the currency's initial amount or the Yoroi payment. |

## Left out

- Remote calls are not modelled; their results are parameters. These are `currentBlock`, `p2s`, `follow`, `getWalletAddress`, `Address(..).ergoTree`, `moment()`, `isAssembler`, `isYoroi` and `yoroiSendFunds`. A failure or rejection of any of them (an exception in the source) is not modelled.
- The `returnFunds` branch of both contracts and the `OUTPUTS.size` and fold arithmetic are not modelled; only the `placeBid` and `startAuction` branches and the `HEIGHT` deadline are.
- The serializer calls (`encodeHex`, `encodeNum`, `encodeLongTuple`, `Serializer.stringToHex`) are modelled as distinct injective constructors, not as byte encodings.
- Numbers are unbounded integers. JavaScript's exponent notation at 1e21 and above, fractional amounts, and the 64-bit range of ErgoScript `Long` are not modelled.
- `longToCurrency` in the assembler modal is not modelled; the modal carries the raw amount.
- `showMsg`, `console.log` and the storage format behind `addAssemblerBid` are not modelled.
- Concurrent bids racing for the same box are not modelled.
- The `$buyItNow` literal has no `L` suffix, unlike the others, so ErgoScript reads it as an `Int`. The model treats it as an integer like the rest.
- `HEIGHT < $timestamp` compares a block height with a millisecond timestamp. It is modelled literally, as the lemmas' `height < now` assumption.
- A missing `contracts[auctionAddress]` entry is not modelled; the threshold and extension are given in the configuration.
- An explorer box lacking R4, R6, R8 or R9 makes the source throw when it reads `.serializedValue`. `Ledger.AuctionBox` always carries all six registers, so that failure is not modelled.
- `NewBid.ReadBidConstants` uses one `treeOf` for both `PK(addr).propBytes` in the contract and `new Address(addr).ergoTree` in the client. The two agree for pay-to-public-key addresses, which is what wallets hand out; other address kinds are not modelled.
- `Serializer.stringToHex` is taken to be the hex of the text's UTF-8 bytes (`Encoding.Utf8`).
- A register holding a value of another type than the one the contract reads counts as unreadable (`None`, so `getOrElse` gives its default). ErgoScript would fail the script instead. The boxes the builders create always hold the type that is read.
- A box with no assets makes the source throw when it reads `box.assets[0]`. The bid members require at least one asset.
- NewBid.BidScriptSplices: requires a wallet address without `$`. `replace` treats `$` patterns in the replacement specially, and a `$` in the address could be matched by a later placeholder. Ergo addresses are base58 and never contain `$`.
- NewBid.BidRequestPassesPlaceBid: requires the auction box id to differ from the literal `$userIns`. It relies on the assembler expanding `$userIns` in place (`Ledger.ExpandInputs`), which is an assumption about the assembler service.
- NewBid.BidHelper: for an unknown wallet kind the source returns `undefined`; the model returns `NoAction`.
- NewAuction.NewAuctionHelper: for an unknown wallet kind the source returns `undefined`; the model returns `NoAction`.
- Ledger.CollBytes: a register copied from the explorer (`Serialized`, such as R4 of the replacement bid box) reads as unreadable; the guards modelled here only read registers the builders encode (R5 of the bid box, R4 to R8 of the new auction box).
