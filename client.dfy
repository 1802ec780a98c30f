/**
 * The transaction pipeline of PbCoroutinesClient: build the base request
 * (resolving missing accounts), sign and estimate a provisional transaction,
 * sign the final transaction, and broadcast it.
 */
module CoroutinesClient {
  import opened Types
  import opened Accounts

  /** A PbCoroutinesClient as the pipeline uses it: its chain id, the remote
      services behind its channel (with the estimator its gas estimation
      method yields for it), the serialisation it relies on, and
      GasEstimate.DEFAULT_FEE_ADJUSTMENT. */
  datatype Client = Client(chainId: string, network: Network, codec: Codec, defaultFeeAdjustment: Double)

  // ---------------------------------------------------------------------------
  // baseRequest

  /** The lookup of one entry succeeds, or is not needed. */
  ghost predicate LookupSucceeds(c: Client, s: BaseReqSigner) {
    s.account.Some? || GetBaseAccount(c.network, c.codec, s.signer.address).result.Ok?
  }

  /** The account queries resolving `signers` makes when none fails: one per
      entry without an account, with that entry's own signer address, in
      list order. */
  function PendingLookups(signers: seq<BaseReqSigner>): (calls: seq<Call>)
    ensures |calls| <= |signers|
    ensures forall k :: 0 <= k < |calls| ==> calls[k].QueryAccount?
  {
    if signers == [] then []
    else
      (if signers[0].account.None? then [QueryAccount(signers[0].signer.address)] else [])
      + PendingLookups(signers[1..])
  }

  /** `output` is the entry `input` with its account filled in: kept when
      the caller supplied one, otherwise the lookup of the entry's own
      signer address; signer and offset are kept. */
  ghost predicate ResolvedEntry(c: Client, input: BaseReqSigner, output: BaseReqSigner) {
    && output.signer == input.signer
    && output.sequenceOffset == input.sequenceOffset
    && output.account.Some?
    && (input.account.Some? ==> output.account == input.account)
    && (input.account.None? ==>
          GetBaseAccount(c.network, c.codec, input.signer.address).result == Ok(output.account.value))
  }

  /** `output` is `input` entry by entry resolved, in the same order. */
  ghost predicate ResolvedFrom(c: Client, input: seq<BaseReqSigner>, output: seq<BaseReqSigner>) {
    && |output| == |input|
    && forall i :: 0 <= i < |input| ==> ResolvedEntry(c, input[i], output[i])
  }

  /** `call` is an account query whose lookup succeeds. */
  ghost predicate QuerySucceeds(c: Client, call: Call) {
    call.QueryAccount? && GetBaseAccount(c.network, c.codec, call.address).result.Ok?
  }

  /** The account queries of a resolution that failed with `error`: a
      non-empty prefix of the pending lookups, every one succeeding except the
      last, which failed with `error`. */
  ghost predicate AbortedAtFirstFailure(c: Client, signers: seq<BaseReqSigner>, calls: seq<Call>, error: Error) {
    && 0 < |calls| <= |PendingLookups(signers)|
    && calls == PendingLookups(signers)[..|calls|]
    && (forall k :: 0 <= k < |calls| - 1 ==> QuerySucceeds(c, calls[k]))
    && calls[|calls| - 1].QueryAccount?
    && GetBaseAccount(c.network, c.codec, calls[|calls| - 1].address).result == Err(error)
  }

  /** One element of the `signers.map { ... }`: keep the entry, and look its
      account up only when the caller gave none. */
  function ResolveSigner(c: Client, s: BaseReqSigner): (r: Run<BaseReqSigner>)
    ensures r.calls == PendingLookups([s])
    ensures r.result.Ok? <==> LookupSucceeds(c, s)
    ensures r.result.Ok? ==> ResolvedEntry(c, s, r.result.value)
    ensures r.result.Err? ==> AbortedAtFirstFailure(c, [s], r.calls, r.result.error)
  {
    match s.account
    case Some(_) => Run(Ok(BaseReqSigner(s.signer, s.sequenceOffset, s.account)), [])
    case None =>
      var lookup := GetBaseAccount(c.network, c.codec, s.signer.address);
      match lookup.result
      case Ok(account) => Run(Ok(BaseReqSigner(s.signer, s.sequenceOffset, Some(account))), lookup.calls)
      case Err(e) => Run(Err(e), lookup.calls)
  }

  lemma PendingLookupsSingle(s: BaseReqSigner)
    ensures PendingLookups([s]) == if s.account.None? then [QueryAccount(s.signer.address)] else []
  {
    var single := [s];
    assert single[1..] == [];
  }

  lemma PendingLookupsCons(signers: seq<BaseReqSigner>)
    requires signers != []
    ensures PendingLookups(signers) == PendingLookups([signers[0]]) + PendingLookups(signers[1..])
  {
    PendingLookupsSingle(signers[0]);
  }

  lemma ResolvedFromCons(c: Client, signers: seq<BaseReqSigner>, first: BaseReqSigner, rest: seq<BaseReqSigner>)
    requires signers != []
    requires ResolvedEntry(c, signers[0], first)
    requires ResolvedFrom(c, signers[1..], rest)
    ensures ResolvedFrom(c, signers, [first] + rest)
  {
    forall i | 0 <= i < |signers| ensures ResolvedEntry(c, signers[i], ([first] + rest)[i]) {
      if i > 0 {
        assert signers[i] == signers[1..][i - 1];
      }
    }
  }

  lemma PrefixAfterHead<T>(head: seq<T>, rest: seq<T>, tail: seq<T>)
    requires |tail| <= |rest| && tail == rest[..|tail|]
    ensures head + tail == (head + rest)[..|head + tail|]
  {
  }

  lemma AbortedInTail(c: Client, signers: seq<BaseReqSigner>, head: seq<Call>, tail: seq<Call>, error: Error)
    requires signers != []
    requires head == PendingLookups([signers[0]])
    requires LookupSucceeds(c, signers[0])
    requires AbortedAtFirstFailure(c, signers[1..], tail, error)
    ensures AbortedAtFirstFailure(c, signers, head + tail, error)
  {
    PendingLookupsCons(signers);
    PendingLookupsSingle(signers[0]);
    var rest := PendingLookups(signers[1..]);
    PrefixAfterHead(head, rest, tail);
    if signers[0].account.None? {
      var first := QueryAccount(signers[0].signer.address);
      assert QuerySucceeds(c, first);
      assert head == [first];
      QueriesSucceedCons(c, first, tail);
    } else {
      assert head + tail == tail;
    }
  }

  lemma QueriesSucceedCons(c: Client, first: Call, tail: seq<Call>)
    requires QuerySucceeds(c, first) && tail != []
    requires forall k :: 0 <= k < |tail| - 1 ==> QuerySucceeds(c, tail[k])
    ensures forall k :: 0 <= k < |[first] + tail| - 1 ==> QuerySucceeds(c, ([first] + tail)[k])
    ensures ([first] + tail)[|[first] + tail| - 1] == tail[|tail| - 1]
  {
    forall k | 0 <= k < |[first] + tail| - 1 ensures QuerySucceeds(c, ([first] + tail)[k]) {
      if k > 0 {
        assert ([first] + tail)[k] == tail[k - 1];
      }
    }
  }

  lemma AllSucceedCons(c: Client, signers: seq<BaseReqSigner>)
    requires signers != []
    ensures (forall i :: 0 <= i < |signers| ==> LookupSucceeds(c, signers[i])) <==>
            LookupSucceeds(c, signers[0]) && forall i :: 0 <= i < |signers| - 1 ==> LookupSucceeds(c, signers[1..][i])
  {
    if LookupSucceeds(c, signers[0]) && forall i :: 0 <= i < |signers| - 1 ==> LookupSucceeds(c, signers[1..][i]) {
      forall i | 1 <= i < |signers| ensures LookupSucceeds(c, signers[i]) {
        assert signers[i] == signers[1..][i - 1];
      }
    }
  }

  /** `signers.map { ... }`: entries are resolved left to right, and the
      first failing lookup aborts the rest. */
  function ResolveSigners(c: Client, signers: seq<BaseReqSigner>): (r: Run<seq<BaseReqSigner>>)
    ensures r.result.Ok? <==> forall i :: 0 <= i < |signers| ==> LookupSucceeds(c, signers[i])
    ensures r.result.Ok? ==> ResolvedFrom(c, signers, r.result.value) && r.calls == PendingLookups(signers)
    ensures r.result.Err? ==> AbortedAtFirstFailure(c, signers, r.calls, r.result.error)
    decreases |signers|
  {
    if signers == [] then Run(Ok([]), [])
    else
      var head := ResolveSigner(c, signers[0]);
      AllSucceedCons(c, signers);
      match head.result
      case Err(e) =>
        PendingLookupsCons(signers);
        Run(Err(e), head.calls)
      case Ok(first) =>
        var tail := ResolveSigners(c, signers[1..]);
        match tail.result
        case Ok(rest) =>
          ResolvedFromCons(c, signers, first, rest);
          PendingLookupsCons(signers);
          Run(Ok([first] + rest), head.calls + tail.calls)
        case Err(e) =>
          AbortedInTail(c, signers, head.calls, tail.calls, e);
          Run(Err(e), head.calls + tail.calls)
  }

  /** `baseRequest(txBody, signers, gasAdjustment, feeGranter)`. */
  function BaseRequest(
    c: Client,
    txBody: TxBody,
    signers: seq<BaseReqSigner>,
    gasAdjustment: Option<Double> := None,
    feeGranter: Option<string> := None
  ): (r: Run<BaseReq>)
    ensures r.result.Ok? <==> forall i :: 0 <= i < |signers| ==> LookupSucceeds(c, signers[i])
    ensures r.result.Ok? ==>
              && ResolvedFrom(c, signers, r.result.value.signers)
              && r.result.value.body == txBody
              && r.result.value.chainId == c.chainId
              && r.result.value.gasAdjustment == gasAdjustment
              && r.result.value.feeGranter == feeGranter
              && r.calls == PendingLookups(signers)
    ensures r.result.Err? ==> AbortedAtFirstFailure(c, signers, r.calls, r.result.error)
  {
    var resolved := ResolveSigners(c, signers);
    match resolved.result
    case Err(e) => Run(Err(e), resolved.calls)
    case Ok(entries) => Run(Ok(BaseReq(entries, txBody, c.chainId, gasAdjustment, feeGranter)), resolved.calls)
  }

  // ---------------------------------------------------------------------------
  // Signing

  /** `signatures[i]` is the signature of signer `i` over sign-doc `i`, for
      every sign doc. */
  ghost predicate SignedPositionally(signers: seq<BaseReqSigner>, signDocs: seq<Bytes>, signatures: seq<Bytes>) {
    && |signDocs| <= |signers|
    && |signatures| == |signDocs|
    && forall i :: 0 <= i < |signDocs| ==> signatures[i] == signers[i].signer.sign(signDocs[i])
  }

  /** The signatures of `req` cover the sign docs built from exactly these
      auth-info and body bytes. */
  ghost predicate SignedOver(c: Client, req: BaseReq, authInfoBytes: Bytes, bodyBytes: Bytes, signatures: seq<Bytes>) {
    SignedPositionally(req.signers, c.codec.buildSignDocBytesList(req, authInfoBytes, bodyBytes), signatures)
  }

  /** `signDocs.mapIndexed { index, doc -> signers[index].signer.sign(doc) }`:
      `signers[index]` throws once the sign docs outnumber the signers. */
  function SignAll(signers: seq<BaseReqSigner>, signDocs: seq<Bytes>): (r: Result<seq<Bytes>>)
    ensures r.Ok? <==> |signDocs| <= |signers|
    ensures r.Ok? ==> SignedPositionally(signers, signDocs, r.value)
    ensures r.Err? ==> r.error == IndexOutOfBounds(|signers|, |signers|)
  {
    if |signDocs| <= |signers| then
      Ok(seq(|signDocs|, i requires 0 <= i < |signDocs| => signers[i].signer.sign(signDocs[i])))
    else
      Err(IndexOutOfBounds(|signers|, |signers|))
  }

  // ---------------------------------------------------------------------------
  // estimateTx

  /** The sign docs of the provisional round, built from the serialised
      body and the estimate-less auth-info. */
  function ProvisionalSignDocs(c: Client, req: BaseReq): seq<Bytes> {
    c.codec.buildSignDocBytesList(req, c.codec.authInfoBytes(c.codec.buildAuthInfo(req, None)), c.codec.bodyBytes(req.body))
  }

  /** The transaction handed to the estimator: the request's body, the
      estimate-less auth-info, and one signature per sign doc built from the
      bytes of exactly these two, sign doc `i` signed by signer `i`. */
  ghost predicate ProvisionallySigned(c: Client, req: BaseReq, tx: Tx) {
    && tx.body == req.body
    && tx.authInfo == c.codec.buildAuthInfo(req, None)
    && SignedOver(c, req, c.codec.authInfoBytes(tx.authInfo), c.codec.bodyBytes(tx.body), tx.signatures)
  }

  /** `estimateTx(baseReq)`: sign each provisional sign doc with the signer
      at its position, then call the estimator once with the signed
      transaction and the chosen gas adjustment. */
  function EstimateTx(c: Client, req: BaseReq): (r: Run<GasEstimate>)
    ensures |r.calls| <= 1
    ensures r.calls != [] <==> |ProvisionalSignDocs(c, req)| <= |req.signers|
    ensures r.calls == [] ==> r.result == Err(IndexOutOfBounds(|req.signers|, |req.signers|))
    ensures r.calls != [] ==>
              && r.calls[0].Estimate?
              && ProvisionallySigned(c, req, r.calls[0].tx)
              && (req.gasAdjustment.Some? ==> r.calls[0].gasAdjustment == req.gasAdjustment.value)
              && (req.gasAdjustment.None? ==> r.calls[0].gasAdjustment == c.defaultFeeAdjustment)
              && r.result == c.network.estimateGas(r.calls[0].tx, r.calls[0].gasAdjustment)
  {
    var tx := Tx(req.body, c.codec.buildAuthInfo(req, None), []);
    var signDocs := c.codec.buildSignDocBytesList(req, c.codec.authInfoBytes(tx.authInfo), c.codec.bodyBytes(tx.body));
    match SignAll(req.signers, signDocs)
    case Err(e) => Run(Err(e), [])
    case Ok(signatures) =>
      var signedTx := tx.(signatures := tx.signatures + signatures);
      var gasAdjustment := req.gasAdjustment.GetOr(c.defaultFeeAdjustment);
      Run(c.network.estimateGas(signedTx, gasAdjustment), [Estimate(signedTx, gasAdjustment)])
  }

  // ---------------------------------------------------------------------------
  // buildTx

  /** The sign docs of the final round, built from the serialised body and
      the auth-info that embeds the estimate. */
  function FinalSignDocs(c: Client, req: BaseReq, gasEstimate: GasEstimate): seq<Bytes> {
    c.codec.buildSignDocBytesList(req, c.codec.authInfoBytes(c.codec.buildAuthInfo(req, Some(gasEstimate))), c.codec.bodyBytes(req.body))
  }

  /** `buildTx(baseReq, gasEstimate)`: the raw transaction carries the very
      auth-info and body bytes its signatures were computed over. */
  function BuildTx(c: Client, req: BaseReq, gasEstimate: GasEstimate): (r: Result<TxRaw>)
    ensures r.Ok? <==> |FinalSignDocs(c, req, gasEstimate)| <= |req.signers|
    ensures r.Ok? ==>
              && r.value.authInfoBytes == c.codec.authInfoBytes(c.codec.buildAuthInfo(req, Some(gasEstimate)))
              && r.value.bodyBytes == c.codec.bodyBytes(req.body)
              && SignedOver(c, req, r.value.authInfoBytes, r.value.bodyBytes, r.value.signatures)
    ensures r.Err? ==> r.error == IndexOutOfBounds(|req.signers|, |req.signers|)
  {
    var authInfoBytes := c.codec.authInfoBytes(c.codec.buildAuthInfo(req, Some(gasEstimate)));
    var txBodyBytes := c.codec.bodyBytes(req.body);
    match SignAll(req.signers, c.codec.buildSignDocBytesList(req, authInfoBytes, txBodyBytes))
    case Err(e) => Err(e)
    case Ok(signatures) => Ok(TxRaw(authInfoBytes, txBodyBytes, signatures))
  }

  // ---------------------------------------------------------------------------
  // broadcastTx and estimateAndBroadcastTx

  /** `broadcastTx(baseReq, gasEstimate, mode)`: one broadcast of the built
      transaction's bytes with the mode given, and its answer returned as is. */
  function BroadcastTx(c: Client, req: BaseReq, gasEstimate: GasEstimate, mode: BroadcastMode := BROADCAST_MODE_SYNC): (r: Run<BroadcastTxResponse>)
    ensures |r.calls| <= 1
    ensures r.calls == [] <==> BuildTx(c, req, gasEstimate).Err?
    ensures r.calls == [] ==> r.result == Err(IndexOutOfBounds(|req.signers|, |req.signers|))
    ensures r.calls != [] ==>
              && r.calls[0] == Broadcast(BroadcastTxRequest(c.codec.txRawBytes(BuildTx(c, req, gasEstimate).value), mode))
              && r.result == c.network.broadcastTx(r.calls[0].request)
  {
    match BuildTx(c, req, gasEstimate)
    case Err(e) => Run(Err(e), [])
    case Ok(txRaw) =>
      var request := BroadcastTxRequest(c.codec.txRawBytes(txRaw), mode);
      Run(c.network.broadcastTx(request), [Broadcast(request)])
  }

  /** `estimateAndBroadcastTx(txBody, signers, mode, gasAdjustment, feeGranter)`:
      baseRequest, then estimateTx and broadcastTx on that one request. */
  function EstimateAndBroadcastTx(
    c: Client,
    txBody: TxBody,
    signers: seq<BaseReqSigner>,
    mode: BroadcastMode := BROADCAST_MODE_SYNC,
    gasAdjustment: Option<Double> := None,
    feeGranter: Option<string> := None
  ): (r: Run<BroadcastTxResponse>)
    ensures BaseRequest(c, txBody, signers, gasAdjustment, feeGranter).result.Err? ==>
              forall k :: 0 <= k < |r.calls| ==> r.calls[k].QueryAccount?
    ensures r.result.Ok? ==>
              && |r.calls| >= 2
              && r.calls[|r.calls| - 2].Estimate?
              && r.calls[|r.calls| - 1].Broadcast?
              && r.calls[|r.calls| - 1].request.mode == mode
  {
    var base := BaseRequest(c, txBody, signers, gasAdjustment, feeGranter);
    match base.result
    case Err(e) => Run(Err(e), base.calls)
    case Ok(req) =>
      var estimate := EstimateTx(c, req);
      match estimate.result
      case Err(e) => Run(Err(e), base.calls + estimate.calls)
      case Ok(gasEstimate) =>
        var broadcast := BroadcastTx(c, req, gasEstimate, mode);
        Run(broadcast.result, base.calls + estimate.calls + broadcast.calls)
  }
}
