# Solana RPC client and transfer verifier, modelled in Dafny

This project models the core of the `MultipleChain\Solana` PHP client. It has two parts.

- **Provider** (`Rpc` module, `rpc.dfy`). It picks the network when it is built, fixes one JSON-RPC correlation id for the life of the object, and lets a method name through only if it matches `^[a-zA-Z0-9]+$` and is on a closed allow-list. It builds the JSON-RPC 2.0 envelope and checks each reply: first the id, then the `error` member.
- **Transaction** (`Ledger` module, `ledger.dfy`). It is a handle on one transaction signature. On every call it fetches the record again and overwrites its cached `data`. It decides whether the transaction succeeded and derives the amount moved from the `preBalances`/`postBalances` lamport snapshots or the token-balance snapshots. It then checks that amount against an expected one at fixed decimal precision.

Two helper modules support them. `Fixed` (`fixed.dfy`) does exact decimal arithmetic: scaling by 10^-d, and rounding half away from zero at d decimals like `number_format`. `Wrappers` (`wrappers.dfy`) holds `Option` and `Result`.

How the model stands in for the parts it does not run:

- The HTTPS exchange is a parameter `server: Post -> Reply` of `Provider.Call` and `Provider.Invoke`. `Exchange.sent` lists the posts an invocation made, so "no request is sent" reads as `sent == []`.
- The value `random_int(0, 99999999)` would give is a constructor argument of type `Key`, the range `[0, 99999999]`. `randomKey` is a `const` field, so no later call can change it.
- Each fetch of the transaction record is an input of the method that fetches: the record the node returned, or `None` when it knows no such transaction. The ghost counter `fetches` counts the fetches.
- Amounts are exact `real`s and lamport balances are `nat`s. The PHP comparison `Utils::toString(x, d) == Utils::toString(y, d)` becomes `SameAt(x, y, d)`: both values round to the same count of 10^-d units. The step `floatval(number_format(x, d))` becomes `Quantize(x, d)`.
- A PHP exception becomes `Err(...)` of a `Failure`. `Message` gives each exception's message text.

The main results:

- `Rpc.Provider.Invoke`: a name on the allow-list is forwarded to `Call` unchanged, and a request is sent exactly when the name is on the list. This rests on `AllowedMethodsMatchPattern`, which proves that every listed name is alphanumeric.
- `Rpc.Provider.BuildRpc`: the envelope decodes back to exactly `("2.0", key, method, params)`.
- The verify methods are proved equal to the verdict functions `CoinVerdict` and `TokenVerdict`. Those functions state the acceptance rule outright. `CoinVerdictExact` and `PairComparisonExact` then show what the rule accepts for amounts with at most 9 decimals (coin) or the token's `decimals` (token). A longer amount is compared after rounding: the coin check accepts it when it rounds to index 1's change at 9 decimals.

Behaviour of the code worth knowing, which the model follows:

- PCRE's `$` also matches before a final newline. So `"getBalance\n"` passes the pattern stage and is refused by the allow-list as "Unallowed method" rather than "Invalid method name" (`NearMissNamesUnallowed`).
- The allow-list has 61 names.
- `customRpc` overrides the host only when it is *truthy*. The PHP strings `""` and `"0"` are ignored like an absent value.
- The `testnet` option is also read by truthiness, so a string such as `"false"` selects devnet. The constructor's `bool` parameter stands for that truthiness.
- A record whose `meta` is null or absent passes `validate`, since `meta->err` then reads as null (`RecordWithoutMeta`).
- The verify routines switch to account index 1 when the index-0 change differs from the expected amount, not when it is negative. `getTransactionAmount` switches on the sign (`FallbackRulesDiffer`).
- `verifyTokenTransferWithData` does not check that `preTokenBalances` is non-empty before it indexes it.
- A `meta.err` member that is JSON null and one that is absent both count as null, as PHP's `is_null` treats them.

## Model

| member | source | states |
|---|---|---|
| Fixed.ToDec | src/Transaction.php:165 | `toDec(units, d)`: scaling the result back by 10^d gives `units` exactly, and the result is negative exactly when `units` is |
| Fixed.RoundUnits | src/Transaction.php:173 | the digits printed at d decimals: the integer nearest to x·10^d, a tie going away from zero |
| Fixed.Quantize | src/Transaction.php:143 | `floatval(number_format(x, d))` is the value with at most d decimals nearest to `x`, a tie going away from zero: it is exactly `RoundUnits(x, d)` units of 10^-d, so it prints like `x` at d decimals and lies within half a unit of it |
| Fixed.RoundUnitsOfToDec | src/Transaction.php:173 | a value that `toDec` gave at scale d prints as exactly its own units |
| Fixed.SameAtExact | src/Transaction.php:150 | two values with at most d decimals print the same at d decimals exactly when they are equal |
| Fixed.QuantizeIdempotent | src/Transaction.php:147 | re-formatting an already formatted amount changes nothing |
| Rpc.AllowedMethodsMatchPattern | src/Provider.php:56-58 | every allow-listed name is non-empty and alphanumeric, so the pattern stage never refuses one |
| Rpc.DecodeEncode | src/Provider.php:189-194 | reading the envelope object back gives the request it was written from |
| Rpc.Message | src/Provider.php:117-177 | a server error's message is passed on unchanged; "Unallowed method: " and "API Error: Method … not found." carry the method name at a fixed position |
| Rpc.MessageIdentifiesFailure | src/Provider.php:117-175 | the method name can be read back from an "Unallowed method" or "Method … not found" message, and the two fixed messages differ |
| Rpc.MalformedNamesRejected | src/Provider.php:113-123 | every name that is empty, or holds a character outside `[a-zA-Z0-9]` other than one final newline, fails with InvalidMethodName and sends nothing |
| Rpc.NearMissNamesUnallowed | src/Provider.php:113-118 | for every non-empty alphanumeric name, every listed name among them, the name plus a trailing newline passes the pattern and fails as UnallowedMethod, sending nothing |
| Rpc.CaseSensitiveAllowList | src/Provider.php:114-118 | example: "getbalance" passes the pattern but is not on the case-sensitive list, so it fails as UnallowedMethod and sends nothing |
| Rpc.Provider.constructor | src/Provider.php:74-85 | testnet selects devnet whatever customRpc is; otherwise mainnet, whose host a truthy customRpc replaces; node, name and explorer always come from the chosen preset; the key is the one drawn |
| Rpc.Provider.GetRandomKey | src/Provider.php:200-203 | the correlation id lies in `[0, 99999999]` and is the key drawn at construction, which no call changes |
| Rpc.Provider.BuildRpc | src/Provider.php:187-195 | the envelope decodes to jsonrpc "2.0", the stored key as id, the given method and the parameters in order |
| Rpc.Provider.ValidateResponse | src/Provider.php:167-180 | an id other than the stored key fails with InvalidResponse before the error member is looked at; code -32601 fails with MethodNotFound(method); any other error fails with the server's message; otherwise the reply passes |
| Rpc.Provider.Call | src/Provider.php:132-158 | exactly one post, of the envelope, to the configured host; the outcome succeeds exactly when the reply's id matches and it has no error, and then it is the reply's result (null when absent) |
| Rpc.Provider.Invoke | src/Provider.php:112-124 | a name failing the pattern gives InvalidMethodName, a well-formed name off the list gives UnallowedMethod, and neither sends anything; a listed name is exactly `Call` with the same parameters; something is sent exactly when the name is listed |
| Ledger.ExplorerUrl | src/Transaction.php:195-201 | the link starts with explorer + "tx/" + hash and has a suffix exactly when the node is not "mainnet-beta", the suffix being "?cluster=" + node |
| Ledger.Transaction.GetUrl | src/Transaction.php:195-201 | the link on the provider's current network starts with explorer + "tx/" + hash and is exactly that on mainnet; off mainnet it is followed by "?cluster=" + node |
| Ledger.ExplorerUrlOfPresets | src/Transaction.php:197-200 | for the mainnet preset the link has no cluster suffix, whatever RPC host overrides it; for devnet it ends in "?cluster=devnet" |
| Ledger.FetchSendsEnvelope | src/Transaction.php:51 | a fetch is one allow-listed `getTransaction` call, posting the envelope with the hash to the provider's host |
| Ledger.Transaction.constructor | src/Transaction.php:32-36 | the handle keeps the hash and provider given, nothing fetched yet |
| Ledger.Transaction.GetHash | src/Transaction.php:41-44 | the signature the handle was opened on |
| Ledger.OpenTransaction | src/Provider.php:210-213 | the factory gives a fresh handle on the hash bound to this provider |
| Ledger.Transaction.GetData | src/Transaction.php:49-52 | every call fetches once more and overwrites `data` with the record returned |
| Ledger.Transaction.Validate | src/Transaction.php:57-73 | fetches once; true exactly when a record came back and its `meta`, or else its `meta.err`, is null or absent, false otherwise (never null) |
| Ledger.RevalidateFetchesAgain | src/Transaction.php:57-60 | validating twice fetches twice and gives the same answer when the node answers alike |
| Ledger.Transaction.GetTransactionAmount | src/Transaction.php:78-117 | fetches once and returns the amount `DerivedAmount` gives for the record fetched |
| Ledger.NativeAmountSign | src/Transaction.php:101-113 | native branch: index 0's change when it is non-negative, else index 1's change; negative exactly when both accounts lost lamports |
| Ledger.NativeFallbackCanBeNegative | src/Transaction.php:107-110 | the fallback to index 1 does not force a non-negative result |
| Ledger.NativeScenario | src/Transaction.php:101-113 | pre [1e9, 5e8], post [1.1e9, 4e8]: the amount is 0.1 and verifying 0.1 succeeds |
| Ledger.InvertedNativeScenario | src/Transaction.php:107-112 | pre [5e8, 1e9], post [4e8, 1.1e9]: index 1 is used, the amount is 0.1 and verifying 0.1 succeeds |
| Ledger.TokenAmountIsMagnitude | src/Transaction.php:81-100 | token branch: the result is never negative and prints like the magnitude of the chosen pair's outflow at that pair's decimals |
| Ledger.TokenScenario | src/Transaction.php:87-90 | pre [50], post [45, 55]: `AmountPair` returns (pre 0 = 50, post 1 = 55), the amount is 5 and verifying 5 succeeds |
| Ledger.Transaction.VerifyTokenTransferWithData | src/Transaction.php:123-154 | fetches once and answers `TokenVerdict`: false when validation fails; with a second pre-balance, true when index 0's outflow equals the amount; otherwise the pair's outflow or its magnitude at the pair's decimals must match the amount |
| Ledger.PairComparisonExact | src/Transaction.php:142-150 | for values with at most `decimals` places, the token comparison accepts the outflow or its magnitude and nothing else |
| Ledger.Transaction.VerifyCoinTransferWithData | src/Transaction.php:160-177 | fetches once and answers `CoinVerdict`: false when validation fails, true when index 0's change equals the amount, else whether index 1's change prints like the amount at 9 decimals |
| Ledger.CoinVerdictExact | src/Transaction.php:163-173 | for an amount with at most 9 decimals, the coin check is true exactly when the amount is index 0's change or index 1's change |
| Ledger.FallbackRulesDiffer | src/Transaction.php:167-171 | the coin check falls back on "differs from the amount", not on the sign, so it accepts index 1's change while the amount reported is index 0's |
| Ledger.RecordWithoutMeta | src/Transaction.php:62-66 | a record without `meta` passes validation; reading an amount or a balance from it is a missing entry on every path |
| Ledger.FailedRecordNeverVerifies | src/Transaction.php:151-153 | a missing or failed record verifies as false on both paths, whatever its balances |
| Ledger.Transaction.VerifyTransferWithData | src/Transaction.php:183-190 | the token check exactly when a token address is set, the coin check otherwise, with the amount passed through |

## Left out

- The curl/HTTPS exchange, its headers and the disabled TLS verification (src/Provider.php:134-153) are I/O. The `server` parameter stands for them.
- Byte-level `json_encode`/`json_decode` is not modelled. The envelope is a JSON value with members in source order, and the reply is a record. The `TypeError` when `json_decode` returns null is left out. A reply id that is missing or not an integer is `None`, which is never identical to the key.
- JSON floating-point numbers are not in the `Json` datatype, and `params` are carried through unchanged.
- `random_int` is replaced by the constructor argument `key`.
- IEEE floats are replaced by exact reals. This covers `uiAmount`, the float `amount` argument and `$diff == $amount`, which becomes exact equality. `number_format` rounds exactly, half away from zero.
- `MultipleChain\Utils::toDec` and `toString` are not part of this model. They are taken to be exact scaling by 10^-d and printing at d decimals.
- PHP's warning-and-null behaviour on an absent record, a record without `meta` or a missing array entry is not modelled. The model reports `Err(RecordMissing)` or `Err(Malformed)` there, at the point where the code first indexes the missing entry. For example, PHP's `getTransactionAmount` on a missing record yields 0 after warnings.
- Ledger.Transaction.GetData: the exceptions `getTransaction` can throw during a fetch are not modelled. These include transport, id and server errors. The step that turns the RPC result into a `TransactionRecord` is not modelled either: the fetched record is an input.
- `getLastTransactionByReceiver` (src/Provider.php:92-104) is not modelled. It chains two RPC calls and indexes an unchecked list.
- The unused `chainIds` table (src/Provider.php:12-16) and the unused `params` argument of `validateResponse` are not modelled.
- Outside code can reassign the public `network` field. The model follows such a reassignment, since `network` is a `var` and `GetUrl` and `Call` read the provider's current network. No method of the class reassigns it.
- Rpc.Provider.Invoke: a name with a non-alphanumeric character is not always refused as "Invalid method name". When the only such character is one final newline, the code's pattern lets it through and the allow-list refuses it. The model follows the code.
