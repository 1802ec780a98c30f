/**
 * Values that flow through the transaction pipeline of the coroutine gRPC
 * client: signers, accounts, the base request, gas estimates, transactions,
 * broadcast requests, errors, and the collaborators the client calls but does
 * not define (protobuf serialisation, the BaseReq helpers, the remote services).
 */
module Types {

  type Bytes = seq<bv8>

  /** An IEEE-754 double (the Kotlin `Double`), kept as its bit pattern: the
      pipeline only chooses such a value and passes it on. */
  datatype Double = Double(bits: bv64)

  datatype Option<+T> = None | Some(value: T) {
    function GetOr(default: T): T {
      match this
      case Some(v) => v
      case None => default
    }
  }

  /** Everything that can abort a pipeline run. */
  datatype Error =
    | Rpc(status: string)                     // a remote call (account query, simulation, broadcast) failed
    | AccountTypeNotHandled(typeUrl: string)  // getBaseAccount: the packed account is not a BaseAccount
    | InvalidProtocolBuffer                   // the packed BaseAccount bytes do not parse
    | IndexOutOfBounds(index: nat, size: nat) // `signers[index]` past the end of the signer list

  datatype Result<+T> = Ok(value: T) | Err(error: Error)

  /** The signer capability: a stable address and a signing function over
      arbitrary bytes (a wallet signer hashes and signs with its private key). */
  datatype Signer = Signer(address: string, sign: Bytes -> Bytes)

  /** cosmos.auth.v1beta1.BaseAccount. */
  datatype BaseAccount = BaseAccount(address: string, pubKey: Bytes, accountNumber: nat, sequence: nat)

  /** google.protobuf.Any: a packed message and the URL naming its type. */
  datatype AnyMessage = AnyMessage(typeUrl: string, value: Bytes)

  /** BaseReqSigner: a signer, its sequence offset and, when already known,
      its on-chain account. */
  datatype BaseReqSigner = BaseReqSigner(signer: Signer, sequenceOffset: int, account: Option<BaseAccount>)

  /** cosmos.tx.v1beta1.TxBody. The pipeline never reads its fields: it
      only passes the body on and serialises it through `Codec`. */
  datatype TxBody = TxBody(messages: seq<AnyMessage>, memo: string, timeoutHeight: nat)

  /** BaseReq: everything needed to build, sign and estimate one transaction. */
  datatype BaseReq = BaseReq(
    signers: seq<BaseReqSigner>,
    body: TxBody,
    chainId: string,
    gasAdjustment: Option<Double>,
    feeGranter: Option<string>)

  datatype Coin = Coin(denom: string, amount: string)

  /** GasEstimate: the gas limit and the fees computed from it. */
  datatype GasEstimate = GasEstimate(limit: int, feesCalculated: seq<Coin>)

  /** cosmos.tx.v1beta1.AuthInfo. Built by `Codec.buildAuthInfo` and only
      passed on and serialised; the pipeline never reads its fields. */
  datatype AuthInfo = AuthInfo(signerInfos: seq<Bytes>, gasLimit: int, feeAmount: seq<Coin>, granter: Option<string>)

  /** cosmos.tx.v1beta1.Tx: body and auth-info as messages, plus signatures. */
  datatype Tx = Tx(body: TxBody, authInfo: AuthInfo, signatures: seq<Bytes>)

  /** cosmos.tx.v1beta1.TxRaw: the exact bytes that were signed, plus signatures. */
  datatype TxRaw = TxRaw(authInfoBytes: Bytes, bodyBytes: Bytes, signatures: seq<Bytes>)

  datatype BroadcastMode =
    | BROADCAST_MODE_UNSPECIFIED
    | BROADCAST_MODE_BLOCK
    | BROADCAST_MODE_SYNC
    | BROADCAST_MODE_ASYNC

  datatype BroadcastTxRequest = BroadcastTxRequest(txBytes: Bytes, mode: BroadcastMode)

  /** The broadcast service's answer, returned to the caller unread. */
  datatype BroadcastTxResponse = BroadcastTxResponse(txHash: string, code: nat, rawLog: string)

  /** Serialisation and the BaseReq helpers, whose definitions are not part of
      this model: the pipeline only calls them. `buildAuthInfo(req, None)` is
      the no-argument call `req.buildAuthInfo()`. */
  datatype Codec = Codec(
    bodyBytes: TxBody -> Bytes,
    authInfoBytes: AuthInfo -> Bytes,
    txRawBytes: TxRaw -> Bytes,
    parseBaseAccount: Bytes -> Option<BaseAccount>,
    buildAuthInfo: (BaseReq, Option<GasEstimate>) -> AuthInfo,
    buildSignDocBytesList: (BaseReq, Bytes, Bytes) -> seq<Bytes>)

  /** The remote side as the client sees it, each call a function of its
      request: the auth query service's `account`, the gas estimator that the
      client's estimation strategy yields for it, and the tx service's
      `broadcastTx`. */
  datatype Network = Network(
    account: string -> Result<AnyMessage>,
    estimateGas: (Tx, Double) -> Result<GasEstimate>,
    broadcastTx: BroadcastTxRequest -> Result<BroadcastTxResponse>)

  /** One call the pipeline makes to the network, in the order made. */
  datatype Call =
    | QueryAccount(address: string)
    | Estimate(tx: Tx, gasAdjustment: Double)
    | Broadcast(request: BroadcastTxRequest)

  /** The outcome of a suspending operation, with the remote calls it made. */
  datatype Run<+T> = Run(result: Result<T>, calls: seq<Call>)
}
