/**
 * Properties of the pipeline that relate several operations: what reaches the
 * network in a successful run, how a failed account lookup or estimate aborts
 * it, that supplied accounts pass through untouched, and that every final
 * signature verifies against its signer.
 */
module PipelineProperties {
  import opened Types
  import opened Accounts
  import opened CoroutinesClient

  /** Entries whose caller already supplied an account are kept as they are,
      no account is queried, and building the request cannot fail. */
  lemma {:induction false} SuppliedAccountsPassThrough(c: Client, signers: seq<BaseReqSigner>)
    requires forall i :: 0 <= i < |signers| ==> signers[i].account.Some?
    ensures ResolveSigners(c, signers) == Run(Ok(signers), [])
    decreases |signers|
  {
    if signers != [] {
      SuppliedAccountsPassThrough(c, signers[1..]);
      assert [signers[0]] + signers[1..] == signers;
    }
  }

  /** The same for the whole base request: its signer list is the caller's. */
  lemma SuppliedAccountsBaseRequest(
    c: Client, txBody: TxBody, signers: seq<BaseReqSigner>, gasAdjustment: Option<Double>, feeGranter: Option<string>)
    requires forall i :: 0 <= i < |signers| ==> signers[i].account.Some?
    ensures BaseRequest(c, txBody, signers, gasAdjustment, feeGranter)
            == Run(Ok(BaseReq(signers, txBody, c.chainId, gasAdjustment, feeGranter)), [])
  {
    SuppliedAccountsPassThrough(c, signers);
  }

  /** The account service is consulted only at the addresses of entries
      without an account: any other answers elsewhere leave the resolution,
      and its calls, unchanged. */
  lemma {:induction false} LookupsOnlyForMissingAccounts(
    c: Client, signers: seq<BaseReqSigner>, account: string -> Result<AnyMessage>)
    requires forall i :: 0 <= i < |signers| && signers[i].account.None? ==>
               account(signers[i].signer.address) == c.network.account(signers[i].signer.address)
    ensures ResolveSigners(c.(network := c.network.(account := account)), signers) == ResolveSigners(c, signers)
    decreases |signers|
  {
    if signers != [] {
      var other := c.(network := c.network.(account := account));
      assert ResolveSigner(other, signers[0]) == ResolveSigner(c, signers[0]);
      assert forall i :: 0 <= i < |signers| - 1 ==> signers[1..][i] == signers[i + 1];
      LookupsOnlyForMissingAccounts(c, signers[1..], account);
    }
  }

  lemma ResolveSignersHeadFails(c: Client, signers: seq<BaseReqSigner>)
    requires signers != [] && !LookupSucceeds(c, signers[0])
    ensures ResolveSigners(c, signers).result == Err(GetBaseAccount(c.network, c.codec, signers[0].signer.address).result.error)
  {
    assert ResolveSigner(c, signers[0]).result.Err?;
  }

  lemma ResolveSignersHeadSucceeds(c: Client, signers: seq<BaseReqSigner>)
    requires signers != [] && LookupSucceeds(c, signers[0])
    requires ResolveSigners(c, signers[1..]).result.Err?
    ensures ResolveSigners(c, signers).result == ResolveSigners(c, signers[1..]).result
  {
    assert ResolveSigner(c, signers[0]).result.Ok?;
  }

  /** When entry `i` is the first whose lookup fails, resolution fails with
      that lookup's error. */
  lemma {:induction false} FirstFailingLookup(c: Client, signers: seq<BaseReqSigner>, i: nat)
    requires i < |signers| && !LookupSucceeds(c, signers[i])
    requires forall j :: 0 <= j < i ==> LookupSucceeds(c, signers[j])
    ensures ResolveSigners(c, signers).result == Err(GetBaseAccount(c.network, c.codec, signers[i].signer.address).result.error)
    decreases i
  {
    if i == 0 {
      ResolveSignersHeadFails(c, signers);
    } else {
      var tail := signers[1..];
      assert tail[i - 1] == signers[i];
      forall j | 0 <= j < i - 1
        ensures LookupSucceeds(c, tail[j])
      {
        assert tail[j] == signers[j + 1];
      }
      FirstFailingLookup(c, tail, i - 1);
      assert LookupSucceeds(c, signers[0]);
      ResolveSignersHeadSucceeds(c, signers);
    }
  }

  lemma ResolveSignersHeadFailsCalls(c: Client, signers: seq<BaseReqSigner>)
    requires signers != [] && !LookupSucceeds(c, signers[0])
    ensures ResolveSigners(c, signers).calls == PendingLookups([signers[0]])
  {
    assert ResolveSigner(c, signers[0]).result.Err?;
  }

  lemma ResolveSignersHeadSucceedsCalls(c: Client, signers: seq<BaseReqSigner>)
    requires signers != [] && LookupSucceeds(c, signers[0])
    requires ResolveSigners(c, signers[1..]).result.Err?
    ensures ResolveSigners(c, signers).calls == PendingLookups([signers[0]]) + ResolveSigners(c, signers[1..]).calls
  {
    assert ResolveSigner(c, signers[0]).result.Ok?;
  }

  /** The pending lookups of the first `i + 1` entries: those of the head,
      then those of the next `i`. */
  lemma PendingLookupsOfPrefix(signers: seq<BaseReqSigner>, i: nat)
    requires i < |signers|
    ensures PendingLookups(signers[..i + 1]) == PendingLookups([signers[0]]) + PendingLookups(signers[1..][..i])
  {
    var prefix := signers[..i + 1];
    var single := [signers[0]];
    assert prefix[0] == signers[0];
    assert prefix[1..] == signers[1..][..i];
    assert single[1..] == [];
  }

  /** One step of the induction below: a succeeding head adds its own
      pending lookup in front of the tail's queries. */
  lemma FailingCallsStep(c: Client, signers: seq<BaseReqSigner>, i: nat)
    requires 0 < i < |signers| && LookupSucceeds(c, signers[0])
    requires ResolveSigners(c, signers[1..]).result.Err?
    requires ResolveSigners(c, signers[1..]).calls == PendingLookups(signers[1..][..i])
    ensures ResolveSigners(c, signers).calls == PendingLookups(signers[..i + 1])
  {
    ResolveSignersHeadSucceedsCalls(c, signers);
    PendingLookupsOfPrefix(signers, i);
  }

  /** When entry `i` is the first whose lookup fails, the queries made are
      exactly the pending lookups of entries `0..i`. */
  lemma {:induction false} FirstFailingLookupCalls(c: Client, signers: seq<BaseReqSigner>, i: nat)
    requires i < |signers| && !LookupSucceeds(c, signers[i])
    requires forall j :: 0 <= j < i ==> LookupSucceeds(c, signers[j])
    ensures ResolveSigners(c, signers).calls == PendingLookups(signers[..i + 1])
    decreases i
  {
    if i == 0 {
      ResolveSignersHeadFailsCalls(c, signers);
      assert signers[..1] == [signers[0]];
    } else {
      var tail := signers[1..];
      assert tail[i - 1] == signers[i];
      forall j | 0 <= j < i - 1
        ensures LookupSucceeds(c, tail[j])
      {
        assert tail[j] == signers[j + 1];
      }
      FirstFailingLookup(c, tail, i - 1);
      FirstFailingLookupCalls(c, tail, i - 1);
      assert LookupSucceeds(c, signers[0]);
      FailingCallsStep(c, signers, i);
    }
  }

  /** An account of an unsupported type aborts the whole run with the type
      URL it carried, before any estimation or broadcast. */
  lemma UnsupportedAccountAborts(
    c: Client, txBody: TxBody, signers: seq<BaseReqSigner>, mode: BroadcastMode,
    gasAdjustment: Option<Double>, feeGranter: Option<string>, i: nat)
    requires i < |signers| && signers[i].account.None?
    requires c.network.account(signers[i].signer.address).Ok?
    requires !IsBaseAccount(c.network.account(signers[i].signer.address).value)
    requires forall j :: 0 <= j < i ==> LookupSucceeds(c, signers[j])
    ensures EstimateAndBroadcastTx(c, txBody, signers, mode, gasAdjustment, feeGranter).result
            == Err(AccountTypeNotHandled(c.network.account(signers[i].signer.address).value.typeUrl))
    ensures forall k :: 0 <= k < |EstimateAndBroadcastTx(c, txBody, signers, mode, gasAdjustment, feeGranter).calls| ==>
              EstimateAndBroadcastTx(c, txBody, signers, mode, gasAdjustment, feeGranter).calls[k].QueryAccount?
  {
    FirstFailingLookup(c, signers, i);
  }

  /** A failed base request is the run's outcome: its error is returned and
      the account queries are the only calls made. */
  lemma FailedBaseRequestAborts(
    c: Client, txBody: TxBody, signers: seq<BaseReqSigner>, mode: BroadcastMode,
    gasAdjustment: Option<Double>, feeGranter: Option<string>)
    requires BaseRequest(c, txBody, signers, gasAdjustment, feeGranter).result.Err?
    ensures EstimateAndBroadcastTx(c, txBody, signers, mode, gasAdjustment, feeGranter)
            == Run(Err(BaseRequest(c, txBody, signers, gasAdjustment, feeGranter).result.error),
                   BaseRequest(c, txBody, signers, gasAdjustment, feeGranter).calls)
  {
  }

  /** A failed estimate is the run's outcome, and nothing is broadcast. */
  lemma FailedEstimateAborts(
    c: Client, txBody: TxBody, signers: seq<BaseReqSigner>, mode: BroadcastMode,
    gasAdjustment: Option<Double>, feeGranter: Option<string>)
    requires BaseRequest(c, txBody, signers, gasAdjustment, feeGranter).result.Ok?
    requires EstimateTx(c, BaseRequest(c, txBody, signers, gasAdjustment, feeGranter).result.value).result.Err?
    ensures EstimateAndBroadcastTx(c, txBody, signers, mode, gasAdjustment, feeGranter).result
            == Err(EstimateTx(c, BaseRequest(c, txBody, signers, gasAdjustment, feeGranter).result.value).result.error)
    ensures forall k :: 0 <= k < |EstimateAndBroadcastTx(c, txBody, signers, mode, gasAdjustment, feeGranter).calls| ==>
              !EstimateAndBroadcastTx(c, txBody, signers, mode, gasAdjustment, feeGranter).calls[k].Broadcast?
  {
  }

  /** Once the estimate succeeds, the run is the broadcast step on the same
      base request and that estimate: its result is the broadcast step's, and
      its calls are the account queries, the estimate, then the broadcast
      step's own calls. */
  lemma RunAfterEstimate(
    c: Client, txBody: TxBody, signers: seq<BaseReqSigner>, mode: BroadcastMode,
    gasAdjustment: Option<Double>, feeGranter: Option<string>)
    requires BaseRequest(c, txBody, signers, gasAdjustment, feeGranter).result.Ok?
    requires EstimateTx(c, BaseRequest(c, txBody, signers, gasAdjustment, feeGranter).result.value).result.Ok?
    ensures
      var base := BaseRequest(c, txBody, signers, gasAdjustment, feeGranter);
      var estimate := EstimateTx(c, base.result.value);
      var broadcast := BroadcastTx(c, base.result.value, estimate.result.value, mode);
      EstimateAndBroadcastTx(c, txBody, signers, mode, gasAdjustment, feeGranter)
        == Run(broadcast.result, base.calls + estimate.calls + broadcast.calls)
  {
  }

  /** When the estimate succeeds but the final sign docs outnumber the
      signers, the run fails with the index error and nothing is broadcast. */
  lemma FailedBuildAborts(
    c: Client, txBody: TxBody, signers: seq<BaseReqSigner>, mode: BroadcastMode,
    gasAdjustment: Option<Double>, feeGranter: Option<string>)
    requires BaseRequest(c, txBody, signers, gasAdjustment, feeGranter).result.Ok?
    requires EstimateTx(c, BaseRequest(c, txBody, signers, gasAdjustment, feeGranter).result.value).result.Ok?
    requires
      var req := BaseRequest(c, txBody, signers, gasAdjustment, feeGranter).result.value;
      BuildTx(c, req, EstimateTx(c, req).result.value).Err?
    ensures EstimateAndBroadcastTx(c, txBody, signers, mode, gasAdjustment, feeGranter).result
            == Err(IndexOutOfBounds(|signers|, |signers|))
    ensures forall k :: 0 <= k < |EstimateAndBroadcastTx(c, txBody, signers, mode, gasAdjustment, feeGranter).calls| ==>
              !EstimateAndBroadcastTx(c, txBody, signers, mode, gasAdjustment, feeGranter).calls[k].Broadcast?
  {
    RunAfterEstimate(c, txBody, signers, mode, gasAdjustment, feeGranter);
    var base := BaseRequest(c, txBody, signers, gasAdjustment, feeGranter);
    assert |base.result.value.signers| == |signers|;
  }

  /** When the transaction is built, the run ends with its broadcast in the
      requested mode and returns the broadcast's answer as is, a failed RPC
      included. */
  lemma BroadcastReached(
    c: Client, txBody: TxBody, signers: seq<BaseReqSigner>, mode: BroadcastMode,
    gasAdjustment: Option<Double>, feeGranter: Option<string>)
    requires BaseRequest(c, txBody, signers, gasAdjustment, feeGranter).result.Ok?
    requires EstimateTx(c, BaseRequest(c, txBody, signers, gasAdjustment, feeGranter).result.value).result.Ok?
    requires
      var req := BaseRequest(c, txBody, signers, gasAdjustment, feeGranter).result.value;
      BuildTx(c, req, EstimateTx(c, req).result.value).Ok?
    ensures
      var r := EstimateAndBroadcastTx(c, txBody, signers, mode, gasAdjustment, feeGranter);
      var req := BaseRequest(c, txBody, signers, gasAdjustment, feeGranter).result.value;
      var request := BroadcastTxRequest(c.codec.txRawBytes(BuildTx(c, req, EstimateTx(c, req).result.value).value), mode);
      && r.calls != []
      && r.calls[|r.calls| - 1] == Broadcast(request)
      && r.result == c.network.broadcastTx(request)
  {
    RunAfterEstimate(c, txBody, signers, mode, gasAdjustment, feeGranter);
  }

  /** A successful run makes exactly the pending account queries, then one
      estimate of the provisionally signed transaction, then one broadcast,
      with the requested mode, of the transaction built from the same base
      request and the estimate just returned; the body bytes signed in both
      rounds are the same, and the answer is the broadcast's. */
  lemma SuccessfulRun(
    c: Client, txBody: TxBody, signers: seq<BaseReqSigner>, mode: BroadcastMode,
    gasAdjustment: Option<Double>, feeGranter: Option<string>)
    requires EstimateAndBroadcastTx(c, txBody, signers, mode, gasAdjustment, feeGranter).result.Ok?
    ensures BaseRequest(c, txBody, signers, gasAdjustment, feeGranter).result.Ok?
    ensures
      var r := EstimateAndBroadcastTx(c, txBody, signers, mode, gasAdjustment, feeGranter);
      var req := BaseRequest(c, txBody, signers, gasAdjustment, feeGranter).result.value;
      && |r.calls| == |PendingLookups(signers)| + 2
      && r.calls[..|r.calls| - 2] == PendingLookups(signers)
      && r.calls[|r.calls| - 2].Estimate?
      && ProvisionallySigned(c, req, r.calls[|r.calls| - 2].tx)
      && r.calls[|r.calls| - 2].gasAdjustment == gasAdjustment.GetOr(c.defaultFeeAdjustment)
      && c.network.estimateGas(r.calls[|r.calls| - 2].tx, r.calls[|r.calls| - 2].gasAdjustment).Ok?
      && var gasEstimate := c.network.estimateGas(r.calls[|r.calls| - 2].tx, r.calls[|r.calls| - 2].gasAdjustment).value;
         && BuildTx(c, req, gasEstimate).Ok?
         && BuildTx(c, req, gasEstimate).value.bodyBytes == c.codec.bodyBytes(r.calls[|r.calls| - 2].tx.body)
         && r.calls[|r.calls| - 1] == Broadcast(BroadcastTxRequest(c.codec.txRawBytes(BuildTx(c, req, gasEstimate).value), mode))
         && r.result == c.network.broadcastTx(r.calls[|r.calls| - 1].request)
  {
    var r := EstimateAndBroadcastTx(c, txBody, signers, mode, gasAdjustment, feeGranter);
    var base := BaseRequest(c, txBody, signers, gasAdjustment, feeGranter);
    var estimate := EstimateTx(c, base.result.value);
    var broadcast := BroadcastTx(c, base.result.value, estimate.result.value, mode);
    assert r.calls == base.calls + [estimate.calls[0]] + [broadcast.calls[0]];
    LastTwo(base.calls, estimate.calls[0], broadcast.calls[0]);
  }

  lemma LastTwo<T>(front: seq<T>, x: T, y: T)
    ensures var s := front + [x] + [y];
            |s| == |front| + 2 && s[..|s| - 2] == front && s[|s| - 2] == x && s[|s| - 1] == y
  {
  }

  /** When the provisional round yields one sign doc per signer, the
      estimator is called with a transaction carrying one signature per
      signer, signature `i` being signer `i`'s over provisional sign doc `i`. */
  lemma ProvisionalSignaturesPerSigner(c: Client, req: BaseReq)
    requires |ProvisionalSignDocs(c, req)| == |req.signers|
    ensures EstimateTx(c, req).calls != []
    ensures
      var tx := EstimateTx(c, req).calls[0].tx;
      && |tx.signatures| == |req.signers|
      && forall i :: 0 <= i < |req.signers| ==>
           tx.signatures[i] == req.signers[i].signer.sign(ProvisionalSignDocs(c, req)[i])
  {
  }

  /** `signer` can sign: what it signs verifies against its address under
      the network's signature check `verify`. */
  ghost predicate SignsVerifiably(verify: (string, Bytes, Bytes) -> bool, signer: Signer) {
    forall data :: verify(signer.address, data, signer.sign(data))
  }

  /** When the final round yields one sign doc per signer, the transaction is
      built, carries one signature per signer, and signature `i` verifies
      against signer `i`'s address over sign-doc `i` of the very bytes the
      transaction carries. */
  lemma FinalSignaturesVerify(c: Client, req: BaseReq, gasEstimate: GasEstimate, verify: (string, Bytes, Bytes) -> bool)
    requires |FinalSignDocs(c, req, gasEstimate)| == |req.signers|
    requires forall i :: 0 <= i < |req.signers| ==> SignsVerifiably(verify, req.signers[i].signer)
    ensures BuildTx(c, req, gasEstimate).Ok?
    ensures
      var txRaw := BuildTx(c, req, gasEstimate).value;
      var signDocs := c.codec.buildSignDocBytesList(req, txRaw.authInfoBytes, txRaw.bodyBytes);
      && |txRaw.signatures| == |req.signers|
      && forall i :: 0 <= i < |req.signers| ==>
           verify(req.signers[i].signer.address, signDocs[i], txRaw.signatures[i])
  {
    var txRaw := BuildTx(c, req, gasEstimate).value;
    var signDocs := c.codec.buildSignDocBytesList(req, txRaw.authInfoBytes, txRaw.bodyBytes);
    forall i | 0 <= i < |req.signers|
      ensures verify(req.signers[i].signer.address, signDocs[i], txRaw.signatures[i])
    {
      assert SignsVerifiably(verify, req.signers[i].signer);
    }
  }
}
