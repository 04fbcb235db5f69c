# ZION–Lightning bridge: a Dafny model of its payment gating

The bridge is a small Go service (`bridge/main.go`). It sits between an LND
Lightning node and the ZION blockchain's RPC endpoint. This project models the
part of it that has logic of its own:

- **`PayInvoice`**: the payment-gating sequence. It decodes the invoice,
  reads the payer's ZION balance, sends the Lightning payment, and then issues
  the ZION deduction to `lightning_pool_address`. Each step runs only if the
  step before it succeeded. The model is a method over abstract collaborators.
  It returns what the caller is told, plus a trace of the external calls it
  issued, with their arguments, in order. This includes the path of the source
  where the Lightning payment succeeded, the deduction failed, and the call
  still reports success.
- **`GetChannels`** and **`GetNodeInfo`**: the LND channel list mapped record
  by record, and the node report with its wrapping `uint64` capacity sum. A
  failed channel listing falls back to no channels and capacity 0.
- **`CreateInvoice`**: the `AddInvoice` request and the pending-invoice
  record built from its answer.
- **`getEnv` / `LoadConfig`**: environment lookups with defaults.

Collaborators are oracles. The LND calls (`GetInfo`, `ListChannels`,
`AddInvoice`, `DecodePayReq`, `SendPaymentSync`) are fields of
`Lnrpc.LightningClient`. The ZION calls (`GetBalance`, `SendTransaction`) are
fields of `Bridge.ZionRpcClient`. Each field gives a call's outcome: a response,
or the text of a transport error. The process environment is a
`map<string, string>` parameter, and the clock reading of `CreateInvoice`
(`time.Now().Unix()`) is a parameter `now`.

Go's fixed-width integers are subset types of `int` (`GoInts`). The
conversions `uint64(int64)` and `int64(uint64)` are written out as
two's-complement reinterpretation, keeping the value modulo 2^64. `uint64`
addition wraps modulo 2^64. The text renderings the source relies on are
modelled together with parsers that invert them: `%d` (channel ids, error
messages) and `hex.EncodeToString` (payment hashes).

Modules: `Wrappers` (Option/Result/Outcome), `GoInts`, `GoFormat`, `Lnrpc`
(the shapes of the LND answers consumed), `Bridge` (the service itself).

`PayInvoice` does what the code does: it logs a failed deduction and returns
success.

The ZION client the source ships (`MockZionRpcClient`) reports a balance of
1000000 for every address, and its transfers never fail.
`PayInvoiceWithMockZion` runs `PayInvoice` against that client. It never
reports a balance failure. It refuses a payment as insufficient exactly when
`uint64(NumSatoshis)` exceeds 1000000, which includes every negative amount. Any
deduction it issues succeeds, so under this client the failed-deduction branch
cannot arise. `PayInvoice` itself is stated for any client, so it covers that
branch too.

## Model

| member | source | states |
|---|---|---|
| `GoInts.Uint64FromInt64` | bridge/main.go:228-230 | `uint64(x)` of an int64 yields the uint64 congruent to x modulo 2^64: x itself when x ≥ 0, a value ≥ 2^63 when x < 0 |
| `GoInts.Int64FromUint64` | bridge/main.go:242 | `int64(x)` of a uint64 yields the int64 congruent to x modulo 2^64: x itself below 2^63, a negative value from 2^63 on |
| `GoInts.AddUint64` | bridge/main.go:199-202 | `totalCapacity += ch.Capacity` is the sum modulo 2^64, and the exact sum when that is below 2^64 |
| `GoInts.Int64RoundTrip` | bridge/main.go:228-230 | reinterpreting an int64 amount as uint64 and back gives the original value, so the channel conversions lose nothing |
| `GoInts.Uint64RoundTrip` | bridge/main.go:242 | reinterpreting the uint64 invoice amount as int64 and back gives the original amount |
| `GoFormat.Decimal` | bridge/main.go:226 | `%d` of a non-negative number is a non-empty string of decimal digits with no leading zero |
| `GoFormat.ParseDecimalOfDecimal` | bridge/main.go:226 | the `%d` rendering of a number reads back as that number |
| `GoFormat.SignedDecimal` | bridge/main.go:278 | `%d` of a signed number starts with '-' exactly when it is negative, and the magnitude that follows is a non-empty digit string with no leading zero |
| `GoFormat.SignedDecimalRoundTrip` | bridge/main.go:278 | the `%d` rendering of a signed number reads back as that number |
| `GoFormat.HexEncode` | bridge/main.go:256 | `hex.EncodeToString` yields two lower-case hex digits per byte |
| `GoFormat.HexRoundTrip` | bridge/main.go:256 | decoding the hex rendering of a payment hash gives back its bytes |
| `Bridge.OsGetenv` | bridge/main.go:125 | `os.Getenv` yields the variable's value when it is set and the empty string when it is unset |
| `Bridge.GetEnv` | bridge/main.go:124-129 | the variable's value when it is set and non-empty, the default when it is unset or empty; never empty unless the default is |
| `Bridge.EmptyValueIsUnset` | bridge/main.go:124-129 | a variable set to the empty string yields the default, exactly as an unset one |
| `Bridge.LoadConfig` | bridge/main.go:113-122 | no setting is ever empty; each of the six variables, when set and non-empty, replaces its default, and when unset or empty leaves its default, independently of every other variable |
| `Bridge.MockZionRpcClient` | bridge/main.go:97-110 | the shipped ZION client reports balance 1000000 for every address, and its transfers never fail |
| `Bridge.PayInvoiceWithMockZion` | bridge/main.go:97-110 | `PayInvoice` with the shipped client never fails on the balance query. It refuses a payment as insufficient exactly when `uint64(NumSatoshis)` exceeds 1000000, so every negative amount is refused. A deduction it issues never fails |
| `Bridge.ToChannel` | bridge/main.go:225-232 | a channel report carries the channel id as the canonical decimal numeral of `ChanId` (digits only, no leading zero, reading back as `ChanId`), the remote key and the active flag unchanged, and the three amounts as uint64 values that convert back to LND's int64 values |
| `Bridge.ToChannels` | bridge/main.go:223-234 | one report per LND channel, in input order, each the conversion of its channel |
| `Bridge.GetChannels` | bridge/main.go:216-237 | a listing error is returned with no channels; otherwise exactly one converted `Channel` per LND channel, in order |
| `Bridge.TotalCapacity` | bridge/main.go:199-202 | the accumulated `totalCapacity` is the sum of the channel capacities modulo 2^64 |
| `Bridge.ConvertedCapacityCongruent` | bridge/main.go:199-202 | the sum of the converted uint64 capacities agrees modulo 2^64 with the sum of LND's signed capacities |
| `Bridge.GetNodeInfo` | bridge/main.go:187-213 | a `GetInfo` error is returned; otherwise identity, alias, active-channel count and flags come from `GetInfo`, capacity is the wrapping uint64 sum of the channel capacities, and a listing error gives no channels and capacity 0 instead of an error |
| `Bridge.InvoiceRequest` | bridge/main.go:241-244 | the `AddInvoice` request carries the memo and `int64(amount)`, which converts back to the amount and is negative from 2^63 on |
| `Bridge.PendingPayment` | bridge/main.go:251-257 | the invoice record carries the returned payment request, the requested uint64 amount, status "pending", no ZION transaction hash, the given timestamp, and a hex payment hash that decodes to `RHash` |
| `Bridge.CreateInvoice` | bridge/main.go:240-260 | an `AddInvoice` error is returned; otherwise the answer to the converted request becomes a pending-invoice record |
| `Bridge.PayErrorMessage` | bridge/main.go:268-292 | the five error texts: "cannot decode invoice: ", "cannot get ZION balance: ", "lightning payment failed: " and "payment error: " each followed by the cause, and "insufficient ZION balance: " followed by the balance, " < " and the signed `NumSatoshis`, in decimal |
| `Bridge.PayErrorMessageInjective` | bridge/main.go:263-293 | the error text PayInvoice returns tells exactly which gate failed and with which cause or amounts: distinct errors have distinct texts |
| `Bridge.PayInvoice` | bridge/main.go:263-303 | the calls issued are a prefix of decode → balance → Lightning send → ZION deduction, with the invoice, the caller's address and `uint64(NumSatoshis)`. A decode failure issues nothing more. A balance failure, or a balance strictly below the amount, issues no send and no deduction, and a balance equal to the amount proceeds. A send error or a non-empty `PaymentError` issues no deduction. The deduction goes to `lightning_pool_address`, at most once, only after a clean send, and the caller is then told success whatever the deduction's outcome |

## Left out

- LND connection setup (TLS credentials with the insecure fallback, macaroon loading, the gRPC dial; bridge/main.go:132-184): foreign-library I/O.
- `MacaroonCredential` (bridge/main.go:374-398): a thin wrapper over the macaroon library.
- The Gin HTTP handlers, JSON binding, status codes, CORS middleware, routes and `main` (bridge/main.go:305-372, 400-448): transport plumbing.
  - `handleHealth` calls no modelled operation and answers with fixed fields and the current time.
  - `handleCreateInvoice` and `handlePayInvoice` answer a JSON binding failure with status 400 before calling anything.
  - The other handlers call the modelled operation. They answer an error with status 500 and its text, which for `PayInvoice` is `PayErrorMessage`.
  - `handlePayInvoice` binds the request's `Amount` field (bridge/main.go:74) but never passes it on. The amount paid and deducted is always the decoded one.
- The internals of the LND calls and of the ZION RPC calls: they are oracles. A call's outcome depends only on its arguments, because each is issued at most once per modelled call.
- Logging (the warnings in `GetNodeInfo` and `PayInvoice`, the success line with the hex payment hash, and the shipped ZION client's `ZION TX: <from> -> <to>: <amount> ZION` line in `SendTransaction`, bridge/main.go:108): no effect on results.
- `context.Context` arguments: deadlines and cancellation are not modelled.
- Go's distinction between a nil and an empty slice (`GetChannels` returns a nil slice for an empty list, which JSON encodes as `null`, while the `GetNodeInfo` fallback uses an empty slice): both are the empty sequence here.
- Concurrency: calls are modelled one at a time, with no shared-state reasoning.
- The bridge keeps no settlement record and does no reservation, retry, compensation or reconciliation. The model adds none.
