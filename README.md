# Transaction pipeline of the Provenance coroutine gRPC client

This project models the transaction pipeline of `PbCoroutinesClient` as
pure Dafny functions over sequences. The pipeline turns a transaction body
and a list of signers into a signed, broadcast transaction:

1. `baseRequest` builds a `BaseReq`. It keeps the caller's signer list in
   order and fills in each missing on-chain account by querying the auth
   service (`getBaseAccount`).
2. `estimateTx` signs each sign doc of a provisional transaction with the
   signer at the same position. It then hands that transaction to the gas
   estimator, with the request's gas adjustment or the default one.
3. `buildTx` rebuilds the auth-info from the estimate and signs again. It
   packages the very auth-info and body bytes that were signed into a
   `TxRaw`.
4. `broadcastTx` and `estimateAndBroadcastTx` run these steps on one
   `BaseReq` and send the result with the requested broadcast mode
   (`BROADCAST_MODE_SYNC` by default).

Everything the client calls but does not define is a function-typed field:

- protobuf serialisation and `BaseReq.buildAuthInfo` / `BaseReq.buildSignDocBytesList` are fields of `Codec`;
- the account query, the gas estimator and the broadcast RPC are fields of `Network`;
- `Signer.address` and `Signer.sign` are fields of `Signer`.

A suspending operation returns a `Run`: its result (`Ok` or `Err`) and the
ordered list of remote calls it made. That list is how the model states
which addresses are looked up and that an abort happens before any
estimate or broadcast. Kotlin's default arguments
(`mode = BROADCAST_MODE_SYNC`, `gasAdjustment = null`, `feeGranter = null`)
are Dafny default parameter values.

Files: `types.dfy` (messages, errors, collaborators), `accounts.dfy`
(`getBaseAccount` and the `Any.is` type check), `client.dfy` (the pipeline),
`properties.dfy` (lemmas that relate several operations).

How the code behaves at three points the model makes explicit:

- Account lookups run one after another in list order, and the first failing lookup aborts the rest (`ResolveSigners`).
- The only `throw` written in `getBaseAccount` is `IllegalArgumentException`, for a packed account type other than `BaseAccount` (`AccountTypeNotHandled`). `unpack`'s parse failure also escapes, as `InvalidProtocolBuffer`. A missing account is whatever error the account RPC returns, passed through as `Rpc`.
- There is one signature per sign doc, not one per signer. `signers[index]` throws once the sign docs outnumber the signers, and the model returns `IndexOutOfBounds` there instead of requiring it away. One signature per signer follows only when `buildSignDocBytesList` yields one doc per signer, and `ProvisionalSignaturesPerSigner` and `FinalSignaturesVerify` take that as their hypothesis.

## Model

| member | source | states |
|---|---|---|
| `Accounts.GetBaseAccount` | client-coroutines/src/main/kotlin/io/provenance/client/coroutines/PbCoroutinesClient.kt:191-197 | exactly one account query with the given address; succeeds iff the answer arrived, is a packed BaseAccount and unpacks, returning the unpacked account; an RPC error is passed through; any other type fails with `AccountTypeNotHandled` carrying its type URL; a BaseAccount that does not unpack fails with `InvalidProtocolBuffer` |
| `Accounts.IsBaseAccountIffSuffix` | client-coroutines/src/main/kotlin/io/provenance/client/coroutines/PbCoroutinesClient.kt:194 | the `is(BaseAccount)` test accepts a type URL exactly when it ends in "/cosmos.auth.v1beta1.BaseAccount", whatever prefix precedes it |
| `Accounts.TypeNameIffSuffix` | client-coroutines/src/main/kotlin/io/provenance/client/coroutines/PbCoroutinesClient.kt:194 | a type URL denotes a given non-empty slash-free name exactly when it ends in "/" followed by that name |
| `Accounts.TypeNameAfterLastSlash` | client-coroutines/src/main/kotlin/io/provenance/client/coroutines/PbCoroutinesClient.kt:194 | the type name read from `prefix + "/" + name` is `name` whenever `name` has no '/' |
| `CoroutinesClient.ResolveSigner` | client-coroutines/src/main/kotlin/io/provenance/client/coroutines/PbCoroutinesClient.kt:102-106 | one entry: a supplied account is kept and nothing is queried; otherwise exactly one query with the entry's own signer address, whose account (or error) the entry takes; signer and offset kept |
| `CoroutinesClient.ResolveSigners` | client-coroutines/src/main/kotlin/io/provenance/client/coroutines/PbCoroutinesClient.kt:101-106 | succeeds iff every needed lookup succeeds; then one output entry per input entry, same order, signer and offset, supplied accounts unchanged, others filled from their own address, and the queries made are exactly those for entries without an account; on failure the queries are a prefix of those, all succeeding but the last, whose error is returned |
| `CoroutinesClient.BaseRequest` | client-coroutines/src/main/kotlin/io/provenance/client/coroutines/PbCoroutinesClient.kt:95-115 | the same success condition, resolution and query log as the signer resolution, and the built request carries the client's chain id and the caller's body, gas adjustment and fee granter unchanged |
| `CoroutinesClient.SignAll` | client-coroutines/src/main/kotlin/io/provenance/client/coroutines/PbCoroutinesClient.kt:144-146 | when the sign docs do not outnumber the signers, one signature per sign doc, signature i by signer i over doc i; otherwise the index error for `signers[signers.size]` |
| `CoroutinesClient.EstimateTx` | client-coroutines/src/main/kotlin/io/provenance/client/coroutines/PbCoroutinesClient.kt:120-135 | at most one estimator call, made iff the provisional sign docs fit the signer list; the transaction estimated has the request's body and estimate-less auth-info and carries one signature per sign doc built from those two messages' bytes, sign doc i signed by signer i; the gas adjustment is the request's when present, else the default; the result is the estimator's answer |
| `CoroutinesClient.BuildTx` | client-coroutines/src/main/kotlin/io/provenance/client/coroutines/PbCoroutinesClient.kt:137-153 | succeeds iff the final sign docs fit the signer list; the TxRaw's auth-info bytes embed the estimate, its body bytes are the request body's, and its signatures are the signers' positional signatures over the sign docs built from exactly those two byte strings |
| `CoroutinesClient.BroadcastTx` | client-coroutines/src/main/kotlin/io/provenance/client/coroutines/PbCoroutinesClient.kt:155-167 | at most one broadcast, made iff the transaction could be built; it sends the built TxRaw's bytes with the given mode (SYNC by default) and returns the service's answer unchanged |
| `CoroutinesClient.EstimateAndBroadcastTx` | client-coroutines/src/main/kotlin/io/provenance/client/coroutines/PbCoroutinesClient.kt:169-180 | a failed base request leaves only account queries in the log; a success ends with one estimate followed by one broadcast in the requested mode; the result on every path is stated by `FailedBaseRequestAborts`, `FailedEstimateAborts`, `FailedBuildAborts`, `BroadcastReached` and `RunAfterEstimate` |
| `PipelineProperties.SuppliedAccountsPassThrough` | client-coroutines/src/main/kotlin/io/provenance/client/coroutines/PbCoroutinesClient.kt:101-106 | when every entry carries an account, resolution returns the caller's list unchanged and makes no query |
| `PipelineProperties.SuppliedAccountsBaseRequest` | client-coroutines/src/main/kotlin/io/provenance/client/coroutines/PbCoroutinesClient.kt:95-115 | when every entry carries an account, the base request cannot fail, makes no query, and holds the caller's signer list |
| `PipelineProperties.LookupsOnlyForMissingAccounts` | client-coroutines/src/main/kotlin/io/provenance/client/coroutines/PbCoroutinesClient.kt:105 | the account service's answers matter only at the addresses of entries without an account: changing them elsewhere changes neither the resolution nor its queries |
| `PipelineProperties.FirstFailingLookup` | client-coroutines/src/main/kotlin/io/provenance/client/coroutines/PbCoroutinesClient.kt:101-106 | if entry i is the first whose lookup fails, resolution fails with that lookup's error |
| `PipelineProperties.FirstFailingLookupCalls` | client-coroutines/src/main/kotlin/io/provenance/client/coroutines/PbCoroutinesClient.kt:101-106 | if entry i is the first whose lookup fails, the queries made are exactly the pending lookups of entries 0 to i, in order, so no later entry is looked up |
| `PipelineProperties.UnsupportedAccountAborts` | client-coroutines/src/main/kotlin/io/provenance/client/coroutines/PbCoroutinesClient.kt:191-197 | an unsupported account type at the first failing entry makes the whole run fail with `AccountTypeNotHandled` naming its type URL, with no estimate and no broadcast |
| `PipelineProperties.FailedBaseRequestAborts` | client-coroutines/src/main/kotlin/io/provenance/client/coroutines/PbCoroutinesClient.kt:175-180 | a failed base request is the run's outcome: its error, and only its account queries |
| `PipelineProperties.FailedEstimateAborts` | client-coroutines/src/main/kotlin/io/provenance/client/coroutines/PbCoroutinesClient.kt:180 | a failed estimate is the run's error and nothing is broadcast |
| `PipelineProperties.RunAfterEstimate` | client-coroutines/src/main/kotlin/io/provenance/client/coroutines/PbCoroutinesClient.kt:169-180 | once the base request and the estimate succeed, the run is the broadcast step on that same request and estimate: its result is that step's result, and its calls are the account queries, the estimate and that step's calls |
| `PipelineProperties.FailedBuildAborts` | client-coroutines/src/main/kotlin/io/provenance/client/coroutines/PbCoroutinesClient.kt:137-153 | when the estimate succeeds but the final sign docs outnumber the signers, the run fails with the index error for `signers[signers.size]` and nothing is broadcast |
| `PipelineProperties.BroadcastReached` | client-coroutines/src/main/kotlin/io/provenance/client/coroutines/PbCoroutinesClient.kt:155-180 | when the transaction is built, the run ends with its broadcast in the requested mode and returns the broadcast RPC's answer unchanged, a failure included |
| `PipelineProperties.SuccessfulRun` | client-coroutines/src/main/kotlin/io/provenance/client/coroutines/PbCoroutinesClient.kt:158-180 | a successful run makes exactly the pending account queries, one estimate of the provisionally signed transaction of the built request with the chosen gas adjustment, and one broadcast, in the requested mode, of the TxRaw built from the same request and the estimate returned; both rounds sign the same body bytes; the answer is the broadcast's |
| `PipelineProperties.ProvisionalSignaturesPerSigner` | client-coroutines/src/main/kotlin/io/provenance/client/coroutines/PbCoroutinesClient.kt:126-133 | given one provisional sign doc per signer, the estimator is called with a transaction carrying one signature per signer, signature i being signer i's over provisional sign doc i |
| `PipelineProperties.FinalSignaturesVerify` | client-coroutines/src/main/kotlin/io/provenance/client/coroutines/PbCoroutinesClient.kt:141-151 | given one final sign doc per signer and signers whose signatures verify, the TxRaw is built with one signature per signer, and signature i verifies against signer i's address over sign doc i of the bytes the TxRaw carries |

## Left out

- Channel construction, `ChannelOpts` and `close()`: transport plumbing, no pipeline logic.
- The generated query stubs: they pass requests through unchanged.
- The unused `suspendable` helpers: thread glue that the pipeline never calls.
- Coroutine suspension and concurrency: remote calls are functions of their request, so the model assumes no chain-state change within one run. Timeouts and transport failures appear only as an `Rpc` error.
- Protobuf wire encoding, `BaseReq.buildAuthInfo` and `BaseReq.buildSignDocBytesList` are opaque `Codec` fields; BaseReq.kt is not part of this model. Consequences:
  - sign-doc contents are not modelled, including the sequence-number plus offset arithmetic and the account-number/chain-id embedding;
  - nothing about the sequence numbers inside sign docs can be stated;
  - "one sign doc per signer" is a hypothesis of `ProvisionalSignaturesPerSigner` and `FinalSignaturesVerify`, not a proved fact.
- The pluggable `PbGasEstimator` strategy is modelled only as the estimator function it yields for this client.
- `GasEstimate.DEFAULT_FEE_ADJUSTMENT` is the client field `defaultFeeAdjustment`. GasEstimate.kt is not part of this model, so its numeric value is not fixed here.
- `gasAdjustment` is a `Double`, modelled as an opaque 64-bit pattern that is only chosen and passed on; no floating-point arithmetic is modelled.
- WalletSigner's key derivation (BIP39/BIP44) and ECDSA over SHA-256: a signer is an address plus an opaque signing function. Exceptions thrown while signing are not modelled.
- `Any.unpack` is the opaque `Codec.parseBaseAccount`. Its parse failure is modelled as `InvalidProtocolBuffer`.
