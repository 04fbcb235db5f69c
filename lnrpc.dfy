/**
  The slice of LND's gRPC interface (`lnrpc`) the bridge consumes. The node
  itself is opaque: each call is an oracle, a field of `LightningClient` that
  gives the call's outcome (a response or a transport error's text).
 */
module Lnrpc {
  import opened Wrappers
  import opened GoInts

  /** One entry of a `ListChannels` response. */
  datatype Channel = Channel(
    chanId: uint64,
    remotePubkey: string,
    capacity: int64,
    localBalance: int64,
    remoteBalance: int64,
    active: bool)

  /** The `GetInfo` response fields the bridge reads. */
  datatype GetInfoResponse = GetInfoResponse(
    identityPubkey: string,
    alias: string,
    numActiveChannels: uint32,
    syncedToChain: bool,
    testnet: bool)

  /** The `AddInvoice` request: the value in satoshis is signed. */
  datatype Invoice = Invoice(value: int64, memo: string)

  /** The `AddInvoice` response fields the bridge reads. */
  datatype AddInvoiceResponse = AddInvoiceResponse(paymentRequest: string, rHash: seq<byte>)

  /** The `DecodePayReq` response field the bridge reads: the amount is signed. */
  datatype PayReq = PayReq(numSatoshis: int64)

  /** The `SendPaymentSync` response: a non-empty `paymentError` reports a failed payment. */
  datatype SendResponse = SendResponse(paymentError: string, paymentHash: seq<byte>)

  /**
    The outcomes of the LND calls. `getInfo` and `listChannels` take no
    argument; the others are functions of the request they are sent.
   */
  datatype LightningClient = LightningClient(
    getInfo: Result<GetInfoResponse, string>,
    listChannels: Result<seq<Channel>, string>,
    addInvoice: Invoice -> Result<AddInvoiceResponse, string>,
    decodePayReq: string -> Result<PayReq, string>,
    sendPaymentSync: string -> Result<SendResponse, string>)
}
