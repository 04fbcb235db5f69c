/**
  The ZION–Lightning bridge service: environment configuration, the node and
  channel reports built from LND's answers, invoice records, and the
  payment-gating sequence of PayInvoice, which decodes a Lightning invoice,
  checks the payer's ZION balance, pays the invoice over Lightning and then
  issues the ZION deduction.

  External calls are oracles: the LND calls are fields of
  `Lnrpc.LightningClient`, the ZION RPC calls fields of `ZionRpcClient`.
 */
module Bridge {
  import opened Wrappers
  import opened GoInts
  import opened GoFormat
  import Lnrpc

  // ---------------------------------------------------------------------------
  // Configuration

  datatype Config = Config(
    zionRpcUrl: string,
    lndHost: string,
    lndTlsCert: string,
    lndMacaroon: string,
    bridgePort: string,
    logLevel: string)

  /** `os.Getenv`: the value of a variable, or the empty string when it is unset. */
  function OsGetenv(env: map<string, string>, key: string): (value: string)
    ensures key in env ==> value == env[key]
    ensures key !in env ==> value == ""
  {
    if key in env then env[key] else ""
  }

  /** `getEnv`: the variable's value when it is set to something non-empty, the default otherwise. */
  function GetEnv(env: map<string, string>, key: string, defaultValue: string): (value: string)
    ensures key in env && env[key] != "" ==> value == env[key]
    ensures key !in env || env[key] == "" ==> value == defaultValue
    ensures value == "" ==> defaultValue == ""
  {
    var v := OsGetenv(env, key);
    if v != "" then v else defaultValue
  }

  /** Setting a variable to the empty string is the same as leaving it unset. */
  lemma EmptyValueIsUnset(env: map<string, string>, key: string, defaultValue: string)
    ensures GetEnv(env[key := ""], key, defaultValue) == GetEnv(env - {key}, key, defaultValue) == defaultValue
  {
  }

  const DEFAULT_CONFIG := Config(
    "http://localhost:18089",
    "localhost:10009",
    "/lnd-certs/tls.cert",
    "/lnd-certs/admin.macaroon",
    "8090",
    "info")

  /** `LoadConfig`, with the process environment given as a map. */
  function LoadConfig(env: map<string, string>): (c: Config)
    // every setting has a non-empty default, so no setting is ever empty
    ensures c.zionRpcUrl != "" && c.lndHost != "" && c.lndTlsCert != ""
    ensures c.lndMacaroon != "" && c.bridgePort != "" && c.logLevel != ""
    // each non-empty variable overrides its default
    ensures "ZION_RPC_URL" in env && env["ZION_RPC_URL"] != "" ==> c.zionRpcUrl == env["ZION_RPC_URL"]
    ensures "LND_HOST" in env && env["LND_HOST"] != "" ==> c.lndHost == env["LND_HOST"]
    ensures "LND_TLS_CERT_PATH" in env && env["LND_TLS_CERT_PATH"] != "" ==> c.lndTlsCert == env["LND_TLS_CERT_PATH"]
    ensures "LND_ADMIN_MACAROON_PATH" in env && env["LND_ADMIN_MACAROON_PATH"] != "" ==>
      c.lndMacaroon == env["LND_ADMIN_MACAROON_PATH"]
    ensures "BRIDGE_PORT" in env && env["BRIDGE_PORT"] != "" ==> c.bridgePort == env["BRIDGE_PORT"]
    ensures "LOG_LEVEL" in env && env["LOG_LEVEL"] != "" ==> c.logLevel == env["LOG_LEVEL"]
    // each unset or empty variable leaves its own default, whatever else is set
    ensures "ZION_RPC_URL" !in env || env["ZION_RPC_URL"] == "" ==> c.zionRpcUrl == DEFAULT_CONFIG.zionRpcUrl
    ensures "LND_HOST" !in env || env["LND_HOST"] == "" ==> c.lndHost == DEFAULT_CONFIG.lndHost
    ensures "LND_TLS_CERT_PATH" !in env || env["LND_TLS_CERT_PATH"] == "" ==> c.lndTlsCert == DEFAULT_CONFIG.lndTlsCert
    ensures "LND_ADMIN_MACAROON_PATH" !in env || env["LND_ADMIN_MACAROON_PATH"] == "" ==>
      c.lndMacaroon == DEFAULT_CONFIG.lndMacaroon
    ensures "BRIDGE_PORT" !in env || env["BRIDGE_PORT"] == "" ==> c.bridgePort == DEFAULT_CONFIG.bridgePort
    ensures "LOG_LEVEL" !in env || env["LOG_LEVEL"] == "" ==> c.logLevel == DEFAULT_CONFIG.logLevel
  {
    Config(
      GetEnv(env, "ZION_RPC_URL", DEFAULT_CONFIG.zionRpcUrl),
      GetEnv(env, "LND_HOST", DEFAULT_CONFIG.lndHost),
      GetEnv(env, "LND_TLS_CERT_PATH", DEFAULT_CONFIG.lndTlsCert),
      GetEnv(env, "LND_ADMIN_MACAROON_PATH", DEFAULT_CONFIG.lndMacaroon),
      GetEnv(env, "BRIDGE_PORT", DEFAULT_CONFIG.bridgePort),
      GetEnv(env, "LOG_LEVEL", DEFAULT_CONFIG.logLevel))
  }

  // ---------------------------------------------------------------------------
  // The ZION RPC client and the bridge

  /** The outcomes of the ZION RPC calls; a transfer yields `Some(message)` on error. */
  datatype ZionRpcClient = ZionRpcClient(
    getBalance: string -> Result<uint64, string>,
    sendTransaction: (string, string, uint64) -> Option<string>)

  const MOCK_BALANCE: uint64 := 1000000

  /** The client as the source ships it: a fixed balance for every address and transfers that never fail. */
  function MockZionRpcClient(): (z: ZionRpcClient)
    ensures forall address :: z.getBalance(address) == Success(MOCK_BALANCE)
    ensures forall from, to, amount :: z.sendTransaction(from, to, amount) == None
  {
    ZionRpcClient(
      address => Success(MOCK_BALANCE),
      (from, to, amount) => None)
  }

  /** The bridge's collaborators; the source never changes them after construction. */
  datatype ZionLightningBridge = ZionLightningBridge(
    lndClient: Lnrpc.LightningClient,
    zionRpc: ZionRpcClient,
    config: Config)

  // ---------------------------------------------------------------------------
  // Channels and node information

  datatype Channel = Channel(
    channelId: string,
    remoteNodeId: string,
    capacity: uint64,
    localBalance: uint64,
    remoteBalance: uint64,
    active: bool)

  datatype NodeInfo = NodeInfo(
    pubKey: string,
    alias: string,
    numChannels: uint32,
    capacity: uint64,
    synced: bool,
    testnet: bool,
    channels: seq<Channel>)

  /** One LND channel as the bridge reports it: the id in decimal, the amounts reinterpreted as uint64. */
  function ToChannel(ch: Lnrpc.Channel): (c: Channel)
    ensures AllDigits(c.channelId) && ParseDecimal(c.channelId) == ch.chanId
    ensures 1 <= |c.channelId| && (|c.channelId| > 1 ==> c.channelId[0] != '0')
    ensures c.remoteNodeId == ch.remotePubkey && c.active == ch.active
    ensures Int64FromUint64(c.capacity) == ch.capacity
    ensures Int64FromUint64(c.localBalance) == ch.localBalance
    ensures Int64FromUint64(c.remoteBalance) == ch.remoteBalance
    ensures c.capacity % TWO_64 == ch.capacity % TWO_64
  {
    ParseDecimalOfDecimal(ch.chanId);
    Int64RoundTrip(ch.capacity);
    Int64RoundTrip(ch.localBalance);
    Int64RoundTrip(ch.remoteBalance);
    Channel(
      Decimal(ch.chanId),
      ch.remotePubkey,
      Uint64FromInt64(ch.capacity),
      Uint64FromInt64(ch.localBalance),
      Uint64FromInt64(ch.remoteBalance),
      ch.active)
  }

  /** The LND channel list mapped record by record, in order. */
  function ToChannels(l: seq<Lnrpc.Channel>): (cs: seq<Channel>)
    ensures |cs| == |l|
    ensures forall i :: 0 <= i < |l| ==> cs[i] == ToChannel(l[i])
  {
    if l == [] then [] else ToChannels(l[..|l| - 1]) + [ToChannel(l[|l| - 1])]
  }

  /** The exact (unbounded) sum of the reported capacities. */
  function SumCapacity(cs: seq<Channel>): int
  {
    if cs == [] then 0 else SumCapacity(cs[..|cs| - 1]) + cs[|cs| - 1].capacity
  }

  /** The exact sum of the capacities LND reports, as signed values. */
  function SumLndCapacity(l: seq<Lnrpc.Channel>): int
  {
    if l == [] then 0 else SumLndCapacity(l[..|l| - 1]) + l[|l| - 1].capacity
  }

  /** Summing the converted capacities gives, modulo 2^64, the sum of LND's signed capacities. */
  lemma ConvertedCapacityCongruent(l: seq<Lnrpc.Channel>)
    ensures SumCapacity(ToChannels(l)) % TWO_64 == SumLndCapacity(l) % TWO_64
  {
    SumOfConverted(l);
    ReinterpretedSumCongruent(l);
  }

  /** The capacities of the converted channels are the reinterpreted LND capacities. */
  lemma {:induction false} SumOfConverted(l: seq<Lnrpc.Channel>)
    ensures SumCapacity(ToChannels(l)) == SumReinterpreted(l)
  {
    if l != [] {
      var init, ch := l[..|l| - 1], l[|l| - 1];
      SumCapacitySnoc(ToChannels(init), ToChannel(ch));
      SumOfConverted(init);
    }
  }

  /** The exact sum of LND's capacities each reinterpreted as uint64. */
  function SumReinterpreted(l: seq<Lnrpc.Channel>): int
  {
    if l == [] then 0 else SumReinterpreted(l[..|l| - 1]) + Uint64FromInt64(l[|l| - 1].capacity)
  }

  /** Reinterpreting each term as uint64 keeps the sum's residue modulo 2^64. */
  lemma {:induction false} ReinterpretedSumCongruent(l: seq<Lnrpc.Channel>)
    ensures SumReinterpreted(l) % TWO_64 == SumLndCapacity(l) % TWO_64
  {
    if l != [] {
      var init, c := l[..|l| - 1], l[|l| - 1].capacity;
      ReinterpretedSumCongruent(init);
      CongruentSum(SumReinterpreted(init), SumLndCapacity(init), Uint64FromInt64(c), c);
    }
  }

  /** Appending a report adds its capacity to the sum. */
  lemma SumCapacitySnoc(cs: seq<Channel>, c: Channel)
    ensures SumCapacity(cs + [c]) == SumCapacity(cs) + c.capacity
  {
    assert (cs + [c])[..|cs|] == cs;
  }

  /** `GetChannels`: one report per LND channel, in order; a listing error is passed on with no channels. */
  method GetChannels(zlb: ZionLightningBridge) returns (r: Result<seq<Channel>, string>)
    ensures zlb.lndClient.listChannels.Failure? ==> r == Failure(zlb.lndClient.listChannels.error)
    ensures zlb.lndClient.listChannels.Success? ==>
      var l := zlb.lndClient.listChannels.value;
      r.Success? && |r.value| == |l| &&
      forall i :: 0 <= i < |l| ==> r.value[i] == ToChannel(l[i])
  {
    var listed := zlb.lndClient.listChannels;
    if listed.Failure? {
      return Failure(listed.error);
    }
    var channels: seq<Channel> := [];
    for i := 0 to |listed.value|
      invariant |channels| == i
      invariant forall k :: 0 <= k < i ==> channels[k] == ToChannel(listed.value[k])
    {
      channels := channels + [ToChannel(listed.value[i])];
    }
    return Success(channels);
  }

  /**
    `GetNodeInfo`: the node's identity from `GetInfo`, its channel reports and
    their total capacity as a wrapping uint64 sum. A failed channel listing is
    only logged: the report then has no channels and capacity 0.
   */
  method GetNodeInfo(zlb: ZionLightningBridge) returns (r: Result<NodeInfo, string>)
    ensures zlb.lndClient.getInfo.Failure? ==> r == Failure(zlb.lndClient.getInfo.error)
    ensures zlb.lndClient.getInfo.Success? ==>
      var info := zlb.lndClient.getInfo.value;
      r.Success? &&
      r.value.pubKey == info.identityPubkey && r.value.alias == info.alias &&
      r.value.numChannels == info.numActiveChannels &&
      r.value.synced == info.syncedToChain && r.value.testnet == info.testnet &&
      r.value.capacity == SumCapacity(r.value.channels) % TWO_64
    ensures zlb.lndClient.getInfo.Success? && zlb.lndClient.listChannels.Failure? ==>
      r.Success? && r.value.channels == [] && r.value.capacity == 0
    ensures zlb.lndClient.getInfo.Success? && zlb.lndClient.listChannels.Success? ==>
      var l := zlb.lndClient.listChannels.value;
      r.Success? && r.value.channels == ToChannels(l) &&
      r.value.capacity == SumLndCapacity(l) % TWO_64
  {
    var info := zlb.lndClient.getInfo;
    if info.Failure? {
      return Failure(info.error);
    }
    var listed := GetChannels(zlb);
    var channels: seq<Channel>;
    if listed.Failure? {
      // the source logs a warning and goes on without channels
      channels := [];
    } else {
      channels := listed.value;
      AsToChannels(zlb.lndClient.listChannels.value, channels);
    }
    var totalCapacity := TotalCapacity(channels);
    if listed.Success? {
      ConvertedCapacityCongruent(zlb.lndClient.listChannels.value);
    }
    var i := info.value;
    return Success(NodeInfo(
      i.identityPubkey, i.alias, i.numActiveChannels, totalCapacity,
      i.syncedToChain, i.testnet, channels));
  }

  /** The loop of `GetNodeInfo` that adds up the channel capacities in a uint64, wrapping on overflow. */
  method TotalCapacity(channels: seq<Channel>) returns (totalCapacity: uint64)
    ensures totalCapacity == SumCapacity(channels) % TWO_64
  {
    totalCapacity := 0;
    for i := 0 to |channels|
      invariant totalCapacity == SumCapacity(channels[..i]) % TWO_64
    {
      SumCapacityStep(channels, i);
      totalCapacity := AddUint64(totalCapacity, channels[i].capacity);
    }
    assert channels[..|channels|] == channels;
  }

  /** Channel reports that agree pointwise with the conversion are the conversion. */
  lemma AsToChannels(l: seq<Lnrpc.Channel>, cs: seq<Channel>)
    requires |cs| == |l| && forall i :: 0 <= i < |l| ==> cs[i] == ToChannel(l[i])
    ensures cs == ToChannels(l)
  {
  }

  /** One step of the wrapping capacity sum. */
  lemma SumCapacityStep(cs: seq<Channel>, i: nat)
    requires i < |cs|
    ensures (SumCapacity(cs[..i]) % TWO_64 + cs[i].capacity) % TWO_64 == SumCapacity(cs[..i + 1]) % TWO_64
  {
    assert cs[..i + 1][..i] == cs[..i];
    ModAdd(SumCapacity(cs[..i]), cs[i].capacity);
  }

  // ---------------------------------------------------------------------------
  // Invoices

  datatype LightningPayment = LightningPayment(
    invoice: string,
    amount: uint64,
    zionTxHash: string,
    status: string,
    timestamp: int64,
    paymentHash: string)

  /** The `AddInvoice` request for an amount: the uint64 amount carried as a signed value. */
  function InvoiceRequest(amount: uint64, memo: string): (req: Lnrpc.Invoice)
    ensures Uint64FromInt64(req.value) == amount && req.memo == memo
    ensures amount < TWO_63 ==> req.value == amount
    ensures TWO_63 <= amount ==> req.value < 0
  {
    Uint64RoundTrip(amount);
    Lnrpc.Invoice(Int64FromUint64(amount), memo)
  }

  /** The record of a freshly added invoice: pending, no ZION transaction yet, payment hash in hex. */
  function PendingPayment(added: Lnrpc.AddInvoiceResponse, amount: uint64, now: int64): (p: LightningPayment)
    ensures p.invoice == added.paymentRequest && p.amount == amount && p.timestamp == now
    ensures p.status == "pending" && p.zionTxHash == ""
    ensures |p.paymentHash| == 2 * |added.rHash| && AllHexDigits(p.paymentHash)
    ensures HexDecode(p.paymentHash) == added.rHash
  {
    HexRoundTrip(added.rHash);
    LightningPayment(added.paymentRequest, amount, "", "pending", now, HexEncode(added.rHash))
  }

  /** `CreateInvoice`, with the clock reading `now` given. */
  function CreateInvoice(zlb: ZionLightningBridge, amount: uint64, memo: string, now: int64)
    : (r: Result<LightningPayment, string>)
    ensures var added := zlb.lndClient.addInvoice(InvoiceRequest(amount, memo));
      (added.Failure? ==> r == Failure(added.error)) &&
      (added.Success? ==> r.Success? && r.value == PendingPayment(added.value, amount, now))
  {
    var added := zlb.lndClient.addInvoice(InvoiceRequest(amount, memo));
    if added.Failure? then Failure(added.error) else Success(PendingPayment(added.value, amount, now))
  }

  // ---------------------------------------------------------------------------
  // Paying an invoice

  /** The address that receives every ZION deduction. */
  const LIGHTNING_POOL_ADDRESS := "lightning_pool_address"

  /** An external call PayInvoice issues, with its arguments. */
  datatype Action =
    | DecodePayReq(payReq: string)
    | GetBalance(address: string)
    | SendPaymentSync(paymentRequest: string)
    | SendTransaction(from: string, to: string, amount: uint64)

  /** Why PayInvoice failed; the source reports these as formatted error strings. */
  datatype PayError =
    | DecodeFailed(cause: string)
    | BalanceUnavailable(cause: string)
    | InsufficientBalance(balance: uint64, numSatoshis: int64)
    | PaymentFailed(cause: string)
    | PaymentRejected(paymentError: string)

  /** The constant text `fmt.Errorf` puts before an error's details. */
  function ErrorPrefix(e: PayError): string
  {
    match e
    case DecodeFailed(_) => "cannot decode invoice: "
    case BalanceUnavailable(_) => "cannot get ZION balance: "
    case InsufficientBalance(_, _) => "insufficient ZION balance: "
    case PaymentFailed(_) => "lightning payment failed: "
    case PaymentRejected(_) => "payment error: "
  }

  /** The formatted details of an error: the cause's text, or both amounts in decimal. */
  function ErrorDetail(e: PayError): string
  {
    match e
    case InsufficientBalance(balance, numSatoshis) => Decimal(balance) + " < " + SignedDecimal(numSatoshis)
    case DecodeFailed(cause) => cause
    case BalanceUnavailable(cause) => cause
    case PaymentFailed(cause) => cause
    case PaymentRejected(paymentError) => paymentError
  }

  /** The text of the error PayInvoice returns, as its `fmt.Errorf` calls format it. */
  function PayErrorMessage(e: PayError): (m: string)
    ensures e.DecodeFailed? ==> m == "cannot decode invoice: " + e.cause
    ensures e.BalanceUnavailable? ==> m == "cannot get ZION balance: " + e.cause
    ensures e.InsufficientBalance? ==>
      m == "insufficient ZION balance: " + (Decimal(e.balance) + " < " + SignedDecimal(e.numSatoshis))
    ensures e.PaymentFailed? ==> m == "lightning payment failed: " + e.cause
    ensures e.PaymentRejected? ==> m == "payment error: " + e.paymentError
  {
    ErrorPrefix(e) + ErrorDetail(e)
  }

  /** In a numeral followed by " < ", the first space is right after the numeral. */
  lemma FirstSpace(a: string, x: string)
    requires AllDigits(a)
    ensures (a + " < " + x)[|a|] == ' '
    ensures forall i :: 0 <= i < |a| ==> (a + " < " + x)[i] != ' '
  {
  }

  /** The prefixes of two error kinds already differ at index 0 or 7. */
  lemma PrefixKind(e1: PayError, e2: PayError)
    requires ErrorPrefix(e1)[0] == ErrorPrefix(e2)[0] && ErrorPrefix(e1)[7] == ErrorPrefix(e2)[7]
    ensures ErrorPrefix(e1) == ErrorPrefix(e2)
    ensures e1.InsufficientBalance? == e2.InsufficientBalance?
  {
  }

  /** A numeral followed by " < " can be split off unambiguously. */
  lemma SplitNumeral(a: string, b: string, x: string, y: string)
    requires AllDigits(a) && AllDigits(b)
    requires a + " < " + x == b + " < " + y
    ensures a == b && x == y
  {
    var s := a + " < " + x;
    FirstSpace(a, x);
    FirstSpace(b, y);
    assert a == s[..|a|] == b;
    assert x == s[|a| + 3..] == y;
  }

  /** The error text names the failing step and its details exactly: distinct errors read differently. */
  lemma PayErrorMessageInjective(e1: PayError, e2: PayError)
    requires PayErrorMessage(e1) == PayErrorMessage(e2)
    ensures e1 == e2
  {
    SamePrefixSameDetail(e1, e2);
    if e1.InsufficientBalance? {
      SplitNumeral(Decimal(e1.balance), Decimal(e2.balance), SignedDecimal(e1.numSatoshis), SignedDecimal(e2.numSatoshis));
      ParseDecimalOfDecimal(e1.balance);
      ParseDecimalOfDecimal(e2.balance);
      SignedDecimalRoundTrip(e1.numSatoshis);
      SignedDecimalRoundTrip(e2.numSatoshis);
    }
  }

  /** Equal error texts have the same kind (their prefixes differ at index 0 or 7) and the same details. */
  lemma SamePrefixSameDetail(e1: PayError, e2: PayError)
    requires PayErrorMessage(e1) == PayErrorMessage(e2)
    ensures ErrorPrefix(e1) == ErrorPrefix(e2) && ErrorDetail(e1) == ErrorDetail(e2)
    ensures e1.InsufficientBalance? == e2.InsufficientBalance?
  {
    var m := PayErrorMessage(e1);
    var p1, p2 := ErrorPrefix(e1), ErrorPrefix(e2);
    assert m[0] == p1[0] && m[0] == p2[0];
    assert m[7] == p1[7] && m[7] == p2[7];
    PrefixKind(e1, e2);
    assert ErrorDetail(e1) == m[|p1|..] == ErrorDetail(e2);
  }

  /** The four external calls of PayInvoice in the order it issues them. */
  function PaymentPlan(invoice: string, zionAddress: string, amount: uint64): seq<Action>
  {
    [DecodePayReq(invoice), GetBalance(zionAddress), SendPaymentSync(invoice),
     SendTransaction(zionAddress, LIGHTNING_POOL_ADDRESS, amount)]
  }

  /** The amount PayInvoice compares with the balance and deducts: the decoded amount as uint64. */
  function DecodedAmount(decoded: Result<Lnrpc.PayReq, string>): uint64
  {
    if decoded.Success? then Uint64FromInt64(decoded.value.numSatoshis) else 0
  }

  /**
    `PayInvoice`: returns what the caller is told, and `trace`, the external
    calls issued, in order. Each step runs only when the one before it
    succeeded; the outcome of the final ZION deduction is ignored.
   */
  method PayInvoice(zlb: ZionLightningBridge, invoice: string, zionAddress: string)
    returns (r: Outcome<PayError>, trace: seq<Action>)
    // the calls issued are always a prefix of the fixed plan, with the plan's arguments
    ensures 1 <= |trace| <= 4
    ensures trace == PaymentPlan(invoice, zionAddress, DecodedAmount(zlb.lndClient.decodePayReq(invoice)))[..|trace|]
    // 1. a decoding failure stops everything
    ensures var decoded := zlb.lndClient.decodePayReq(invoice);
      decoded.Failure? ==> r == Fail(DecodeFailed(decoded.error)) && |trace| == 1
    // 2. a balance query failure stops before the Lightning send
    ensures var decoded, balance := zlb.lndClient.decodePayReq(invoice), zlb.zionRpc.getBalance(zionAddress);
      decoded.Success? && balance.Failure? ==>
        r == Fail(BalanceUnavailable(balance.error)) && |trace| == 2
    // 3. a balance strictly below the wrapped amount stops before the Lightning send
    ensures var decoded, balance := zlb.lndClient.decodePayReq(invoice), zlb.zionRpc.getBalance(zionAddress);
      decoded.Success? && balance.Success? && balance.value < DecodedAmount(decoded) ==>
        r == Fail(InsufficientBalance(balance.value, decoded.value.numSatoshis)) && |trace| == 2
    // the Lightning send is issued exactly when the amount is covered (equality included)
    ensures var decoded, balance := zlb.lndClient.decodePayReq(invoice), zlb.zionRpc.getBalance(zionAddress);
      3 <= |trace| <==> decoded.Success? && balance.Success? && DecodedAmount(decoded) <= balance.value
    // 4. a failed send, or a send reporting a payment error, stops before the deduction
    ensures var payment := zlb.lndClient.sendPaymentSync(invoice);
      3 <= |trace| && payment.Failure? ==> r == Fail(PaymentFailed(payment.error)) && |trace| == 3
    ensures var payment := zlb.lndClient.sendPaymentSync(invoice);
      3 <= |trace| && payment.Success? && payment.value.paymentError != "" ==>
        r == Fail(PaymentRejected(payment.value.paymentError)) && |trace| == 3
    // 5. once the send succeeds, the deduction is issued once and the call succeeds, whatever the deduction's outcome
    ensures var payment := zlb.lndClient.sendPaymentSync(invoice);
      3 <= |trace| && payment.Success? && payment.value.paymentError == "" ==> r == Pass && |trace| == 4
    ensures r == Pass <==> |trace| == 4
    ensures forall i :: 0 <= i < |trace| && trace[i].SendTransaction? ==>
      i == 3 && trace[i] == SendTransaction(zionAddress, LIGHTNING_POOL_ADDRESS, DecodedAmount(zlb.lndClient.decodePayReq(invoice)))
  {
    ghost var plan := PaymentPlan(invoice, zionAddress, DecodedAmount(zlb.lndClient.decodePayReq(invoice)));

    trace := [DecodePayReq(invoice)];
    var decoded := zlb.lndClient.decodePayReq(invoice);
    if decoded.Failure? {
      return Fail(DecodeFailed(decoded.error)), trace;
    }
    var payReq := decoded.value;

    trace := trace + [GetBalance(zionAddress)];
    var balance := zlb.zionRpc.getBalance(zionAddress);
    if balance.Failure? {
      return Fail(BalanceUnavailable(balance.error)), trace;
    }
    if balance.value < Uint64FromInt64(payReq.numSatoshis) {
      return Fail(InsufficientBalance(balance.value, payReq.numSatoshis)), trace;
    }

    trace := trace + [SendPaymentSync(invoice)];
    var payment := zlb.lndClient.sendPaymentSync(invoice);
    if payment.Failure? {
      return Fail(PaymentFailed(payment.error)), trace;
    }
    if payment.value.paymentError != "" {
      return Fail(PaymentRejected(payment.value.paymentError)), trace;
    }

    var amount := Uint64FromInt64(payReq.numSatoshis);
    trace := trace + [SendTransaction(zionAddress, LIGHTNING_POOL_ADDRESS, amount)];
    var deductionError := zlb.zionRpc.sendTransaction(zionAddress, LIGHTNING_POOL_ADDRESS, amount);
    // the source only logs a failed deduction; the payment is reported as successful
    assert trace == plan;
    return Pass, trace;
  }

  /**
    PayInvoice with the ZION client the source ships. The balance is always
    1000000, so the only balance refusal is an amount above it (every negative
    `NumSatoshis` included, as its uint64 reinterpretation is at least 2^63),
    and a deduction that is issued never fails.
   */
  method PayInvoiceWithMockZion(lnd: Lnrpc.LightningClient, config: Config, invoice: string, zionAddress: string)
    returns (r: Outcome<PayError>, trace: seq<Action>)
    ensures var decoded := lnd.decodePayReq(invoice);
      (r.Fail? && r.error.InsufficientBalance?) <==>
        decoded.Success? && MOCK_BALANCE < Uint64FromInt64(decoded.value.numSatoshis)
    ensures var decoded := lnd.decodePayReq(invoice);
      decoded.Success? && decoded.value.numSatoshis < 0 ==>
        r == Fail(InsufficientBalance(MOCK_BALANCE, decoded.value.numSatoshis)) && |trace| == 2
    ensures !(r.Fail? && r.error.BalanceUnavailable?)
    ensures |trace| == 4 ==>
      trace[3].SendTransaction? &&
      MockZionRpcClient().sendTransaction(trace[3].from, trace[3].to, trace[3].amount) == None
  {
    var zlb := ZionLightningBridge(lnd, MockZionRpcClient(), config);
    r, trace := PayInvoice(zlb, invoice, zionAddress);
  }
}
