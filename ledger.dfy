/**
 * The values the two request builders read and produce: explorer boxes,
 * box specifications and funding requests for the assembler service,
 * register encodings, the pending-bid records kept by the client, and the
 * configuration constants that both builders consult.
 */
module Ledger {
  import opened Wrappers
  import opened Encoding

  /** The literal input id that the assembler expands into the user's own funding boxes. */
  const UserInputs := "$userIns"

  /** The token id that the assembler replaces by the first token of the user's inputs. */
  const UserInputsToken := "$userIns.token"

  datatype Token = Token(tokenId: string, amount: int)

  /**
   * A register value as it is handed to the assembler. The serializer calls
   * are not modelled; each encoding is a constructor of its own, so two
   * encodings are equal exactly when they encode the same arguments.
   */
  datatype RegisterValue =
    | Serialized(hex: string)           // `serializedValue` of a register read from the explorer
    | EncodedHex(hex: string)           // `encodeHex(hex)`: a Coll[Byte] constant
    | EncodedNum(n: int)                // `encodeNum(n.toString())`: a Long constant
    | EncodedLongTuple(a: int, b: int)  // `encodeLongTuple(a, b)`: a Coll[Long] of two
    | EncodedText(text: string)         // `encodeHex(Serializer.stringToHex(text))`

  datatype Registers = Registers(
    R4: RegisterValue, R5: RegisterValue, R6: RegisterValue,
    R7: RegisterValue, R8: RegisterValue, R9: RegisterValue)

  /** A register read as `Coll[Byte]` by a contract. */
  function CollBytes(r: RegisterValue): (b: Option<seq<byte>>)
    ensures b.Some? <==> r.EncodedHex? || r.EncodedText?
    ensures r.EncodedHex? ==> b == Some(HexToBytes(r.hex))
    ensures r.EncodedText? ==> b == Some(Utf8(r.text))
  {
    match r
    case EncodedHex(h) => Some(HexToBytes(h))
    case EncodedText(t) => Some(Utf8(t))
    case _ => None
  }

  /** A register read as `Long` by a contract. */
  function AsLong(r: RegisterValue): (n: Option<int>)
    ensures r.EncodedNum? <==> n.Some?
  {
    match r
    case EncodedNum(n) => Some(n)
    case _ => None
  }

  /** A register read as `Coll[Long]` of two by a contract. */
  function AsLongPair(r: RegisterValue): (p: Option<(int, int)>)
    ensures r.EncodedLongTuple? <==> p.Some?
  {
    match r
    case EncodedLongTuple(a, b) => Some((a, b))
    case _ => None
  }

  /** One output the assembler is asked to create; a refund box carries no registers. */
  datatype BoxSpec = BoxSpec(address: string, value: int, assets: seq<Token>, registers: Option<Registers>)

  datatype TxSpec = TxSpec(requests: seq<BoxSpec>, fee: int, inputs: seq<string>, dataInputs: seq<string>)

  /** The funding request passed to the assembler's `follow`. */
  datatype Request = Request(address: string, returnTo: string, startWhen: map<string, int>, txSpec: TxSpec)

  datatype Block = Block(timestamp: int)

  /** An auction box as the explorer reports it. */
  datatype AuctionBox = AuctionBox(
    id: string,            // the explorer's `id`
    boxId: string,         // the explorer's `boxId`
    value: int,
    assets: seq<Token>,
    bidder: string,        // address of the current highest bidder
    endTime: int,
    currency: string,      // key into the supported currencies
    additionalRegisters: Registers)

  /** An entry of the supported-currency table, or the `currency` argument of an auction. */
  datatype Currency = Currency(id: string, name: string, initial: int)

  /**
   * The constants the two builders read from the application's configuration;
   * `extendThreshold` and `extendNum` are the entry for `auctionAddress`.
   */
  datatype Config = Config(
    auctionAddress: string,
    txFee: int,
    extendThreshold: int,
    extendNum: int,
    dataInputBoxId: string,      // `additionalData.dataInput.boxId`
    ergMinSupported: int,        // `supportedCurrencies.ERG.minSupported`
    ergInitial: int,             // `supportedCurrencies.ERG.initial`
    supportedCurrencies: map<string, Currency>)

  const PendingMining := "pending mining"

  /** The `info` part of a pending-bid record; `null` and absent keys are `None`. */
  datatype BidInfo = BidInfo(
    token: Option<Token>,
    boxId: Option<string>,
    txId: Option<string>,
    tx: Option<string>,
    prevEndTime: Option<int>,
    shouldExtend: Option<bool>,
    status: string,
    amount: int,
    currency: Option<Currency>,
    isFirst: bool)

  datatype PendingBid = PendingBid(id: string, msg: string, info: BidInfo)

  /** The object `follow` resolves to, after `address` and `block` are set on it. */
  datatype FollowResult = FollowResult(id: Option<string>, address: string, block: Block)

  /** What a helper does after a successful registration. */
  datatype HelperOutcome =
    | AssemblerModal(address: string, amount: int, isAuction: bool, currency: string)
    | YoroiSend(need: map<string, int>, address: string, block: Block)
    | NoAction

  const AssemblerUnreachable := "Could not contact the assembler service"

  /**
   * The inputs of the transaction the assembler assembles: the literal
   * `$userIns` stands for the user's own funding boxes, in its place.
   */
  function ExpandInputs(inputs: seq<string>, userIns: seq<string>): (r: seq<string>)
    ensures UserInputs !in inputs ==> r == inputs
    ensures |inputs| > 0 && inputs[|inputs| - 1] != UserInputs ==>
              |r| > 0 && r[|r| - 1] == inputs[|inputs| - 1]
    decreases |inputs|
  {
    if inputs == [] then []
    else ExpandInputs(inputs[..|inputs| - 1], userIns)
         + (if inputs[|inputs| - 1] == UserInputs then userIns else [inputs[|inputs| - 1]])
  }

  /**
   * The client's list of pending bids (`addAssemblerBid`): records are only
   * ever appended.
   */
  class PendingBids {
    var records: seq<PendingBid>

    constructor ()
      ensures records == []
    {
      records := [];
    }

    method Add(bid: PendingBid)
      modifies this
      ensures records == old(records) + [bid]
    {
      records := records + [bid];
    }
  }
}
