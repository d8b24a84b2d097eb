/**
 * One-time passwords: `sendOTPToPhone` (identical in both builds), which
 * replaces a phone's pending codes by a new one valid for five minutes, and the
 * two copies of `verifyOTP`: the TypeScript one, which marks the code used and
 * the phone verified, and the compiled one, which also normalizes the phone,
 * deploys the wallet on the requested chains and reports a summary.
 */
module OtpVerification {
  import opened Js
  import opened ChainRegistry
  import PhoneNumbers
  import Onboarding
  import BlockchainDeploy

  /** Five minutes, in milliseconds. */
  const OtpLifetime: int := 5 * 60 * 1000

  /** An OTP document; `createdAt` is the time it was created. */
  datatype OtpDoc = OtpDoc(phone: string, otp: string, expiresAt: int, verified: bool, createdAt: int)

  /** `OTP.deleteMany({ phone, verified: false })`: the documents kept, in order. */
  function RemoveUnverified(docs: seq<OtpDoc>, phone: string): seq<OtpDoc>
  {
    if docs == [] then []
    else
      var last := docs[|docs| - 1];
      RemoveUnverified(docs[..|docs| - 1], phone)
      + (if last.phone == phone && !last.verified then [] else [last])
  }

  /** Exactly the documents that are verified or belong to another phone survive the deletion. */
  lemma {:induction false} RemoveUnverifiedKeeps(docs: seq<OtpDoc>, phone: string, d: OtpDoc)
    ensures d in RemoveUnverified(docs, phone) <==> d in docs && (d.phone != phone || d.verified)
  {
    if docs != [] {
      RemoveUnverifiedKeeps(docs[..|docs| - 1], phone, d);
      assert docs == docs[..|docs| - 1] + [docs[|docs| - 1]];
    }
  }

  /** The documents after `sendOTPToPhone(phone)` with the given code at time now. */
  function AfterSend(docs: seq<OtpDoc>, phone: string, code: string, now: int): seq<OtpDoc>
  {
    RemoveUnverified(docs, phone) + [OtpDoc(phone, code, now + OtpLifetime, false, now)]
  }

  /** A pending (unverified) code for the phone. */
  predicate Pending(d: OtpDoc, phone: string)
  {
    d.phone == phone && !d.verified
  }

  /**
   * After a send the phone has exactly one pending code, the new one, which
   * expires five minutes later; documents of other phones and verified ones are kept.
   */
  lemma SendLeavesOnePending(docs: seq<OtpDoc>, phone: string, code: string, now: int)
    ensures var after := AfterSend(docs, phone, code, now);
            var last := |after| - 1;
            after[last] == OtpDoc(phone, code, now + OtpLifetime, false, now)
            && forall i :: 0 <= i < |after| && Pending(after[i], phone) ==> i == last
    ensures forall d :: d in docs && (d.phone != phone || d.verified) ==> d in AfterSend(docs, phone, code, now)
  {
    var kept := RemoveUnverified(docs, phone);
    var after := AfterSend(docs, phone, code, now);
    forall i | 0 <= i < |after| - 1
      ensures !Pending(after[i], phone)
    {
      assert after[i] == kept[i];
      assert kept[i] in kept;
      RemoveUnverifiedKeeps(docs, phone, kept[i]);
    }
    forall d | d in docs && (d.phone != phone || d.verified)
      ensures d in after
    {
      RemoveUnverifiedKeeps(docs, phone, d);
    }
  }

  /** `OTP.findOne({ phone, otp, verified: false }).sort({ createdAt: -1 })`: the newest match. */
  predicate Matches(d: OtpDoc, phone: string, otp: string)
  {
    d.phone == phone && d.otp == otp && !d.verified
  }

  /**
   * The index of the newest matching document. Documents are stored in creation
   * order, so the newest match is the last one.
   */
  function FindNewest(docs: seq<OtpDoc>, phone: string, otp: string): (r: Option<nat>)
    ensures r.Some? ==> r.value < |docs| && Matches(docs[r.value], phone, otp)
                        && forall j :: r.value < j < |docs| ==> !Matches(docs[j], phone, otp)
    ensures r.None? ==> forall j :: 0 <= j < |docs| ==> !Matches(docs[j], phone, otp)
  {
    if docs == [] then None
    else if Matches(docs[|docs| - 1], phone, otp) then Some(|docs| - 1)
    else
      var r := FindNewest(docs[..|docs| - 1], phone, otp);
      assert forall j :: 0 <= j < |docs| - 1 ==> docs[..|docs| - 1][j] == docs[j];
      r
  }

  /** The code check: "Invalid code" when nothing matches, "OTP expired" past `expiresAt`, else the document. */
  function CheckCode(docs: seq<OtpDoc>, phone: string, otp: string, now: int): (r: Result<nat>)
    ensures r.Ok? ==> r.value < |docs| && Matches(docs[r.value], phone, otp) && now <= docs[r.value].expiresAt
    ensures r == Err("Invalid code") <==> FindNewest(docs, phone, otp).None?
  {
    match FindNewest(docs, phone, otp)
    case None => Err("Invalid code")
    case Some(i) => if docs[i].expiresAt < now then Err("OTP expired") else Ok(i)
  }

  /** A code just sent is accepted for the same phone string until it expires. */
  lemma SentCodeIsAccepted(docs: seq<OtpDoc>, phone: string, code: string, sentAt: int, now: int)
    requires sentAt <= now <= sentAt + OtpLifetime
    ensures CheckCode(AfterSend(docs, phone, code, sentAt), phone, code, now)
            == Ok(|AfterSend(docs, phone, code, sentAt)| - 1)
  {
  }

  /** A code is refused once its five minutes are over. */
  lemma SentCodeExpires(docs: seq<OtpDoc>, phone: string, code: string, sentAt: int, now: int)
    requires now > sentAt + OtpLifetime
    ensures CheckCode(AfterSend(docs, phone, code, sentAt), phone, code, now) == Err("OTP expired")
  {
  }

  /** The OTP collection. */
  class OtpStore {
    var docs: seq<OtpDoc>

    constructor(docs: seq<OtpDoc>)
      ensures this.docs == docs
    {
      this.docs := docs;
    }

    /**
     * `sendOTPToPhone`: 400 without a phone; otherwise the pending codes of the
     * phone are deleted and the new one stored, whatever the SMS gateway then
     * answers (a gateway error is a 500 after the store has changed).
     */
    method SendOtp(phone: string, code: string, now: int, sms: Result<string>) returns (resp: Response)
      modifies this
      ensures phone == "" ==> resp == Response(400, "Phone required") && docs == old(docs)
      ensures phone != "" ==> docs == AfterSend(old(docs), phone, code, now)
      ensures phone != "" ==> resp == if sms.Ok? then Response(200, "OTP sent to phone")
                                      else Response(500, "Failed to send OTP")
    {
      if phone == "" {
        return Response(400, "Phone required");
      }
      docs := RemoveUnverified(docs, phone);
      docs := docs + [OtpDoc(phone, code, now + OtpLifetime, false, now)];
      if sms.Err? {
        return Response(500, "Failed to send OTP");
      }
      resp := Response(200, "OTP sent to phone");
    }

    /** `otpDoc.verified = true; await otpDoc.save()`. */
    method MarkUsed(i: nat)
      requires i < |docs|
      modifies this
      ensures docs == old(docs)[i := old(docs)[i].(verified := true)]
    {
      docs := docs[i := docs[i].(verified := true)];
    }
  }

  /** A used code cannot be used again. */
  lemma UsedCodeIsRefused(docs: seq<OtpDoc>, phone: string, otp: string, now: int, later: int)
    requires CheckCode(docs, phone, otp, now).Ok?
    requires forall j :: 0 <= j < |docs| ==> Matches(docs[j], phone, otp) ==> j == CheckCode(docs, phone, otp, now).value
    ensures var i := CheckCode(docs, phone, otp, now).value;
            CheckCode(docs[i := docs[i].(verified := true)], phone, otp, later) == Err("Invalid code")
  {
  }

  /**
   * A code sent and then used within its five minutes is refused afterwards,
   * whatever codes the phone had pending before the send.
   */
  lemma SentThenUsedIsRefused(docs: seq<OtpDoc>, phone: string, code: string, sentAt: int, now: int, later: int)
    requires sentAt <= now <= sentAt + OtpLifetime
    ensures var after := AfterSend(docs, phone, code, sentAt);
            var i := |after| - 1;
            CheckCode(after, phone, code, now) == Ok(i)
            && CheckCode(after[i := after[i].(verified := true)], phone, code, later) == Err("Invalid code")
  {
    var after := AfterSend(docs, phone, code, sentAt);
    SentCodeIsAccepted(docs, phone, code, sentAt, now);
    SendLeavesOnePending(docs, phone, code, sentAt);
    assert forall j :: 0 <= j < |after| && Matches(after[j], phone, code) ==> Pending(after[j], phone);
    UsedCodeIsRefused(after, phone, code, now, later);
  }

  // ---- verifyOTP (TypeScript) ----

  /**
   * The TypeScript `verifyOTP`. `user` is what `User.findOne({ phone })`
   * returned and `activation` what the on-chain activation did; its failure
   * is swallowed, leaving `txHash` undefined.
   */
  method VerifyOtpSource(store: OtpStore, phone: string, otp: string, blockchainNetwork: JsValue,
                         user: Onboarding.User?, activation: Result<string>, now: int)
    returns (resp: Response, txHash: Option<string>)
    modifies store, user
    ensures phone == "" || otp == "" || !Truthy(blockchainNetwork)
            ==> resp == Response(400, "Phone, OTP, and blockchainNetwork required")
                && store.docs == old(store.docs) && txHash.None?
    ensures phone != "" && otp != "" && Truthy(blockchainNetwork)
            && CheckCode(old(store.docs), phone, otp, now).Err?
            ==> resp == Response(400, CheckCode(old(store.docs), phone, otp, now).message)
                && store.docs == old(store.docs)
    ensures phone != "" && otp != "" && Truthy(blockchainNetwork)
            && CheckCode(old(store.docs), phone, otp, now).Ok?
            ==> var i := CheckCode(old(store.docs), phone, otp, now).value;
                store.docs == old(store.docs)[i := old(store.docs)[i].(verified := true)]
                && (user == null ==> resp == Response(404, "User not found"))
                && (user != null ==> resp == Response(200, "OTP verified, phone number confirmed")
                                     && user.Record() == Onboarding.PhoneVerified(old(user.Record()))
                                     && txHash == (if activation.Ok? then Some(activation.value) else None))
    ensures resp.status != 200 && user != null ==> user.Record() == old(user.Record())
  {
    txHash := None;
    if phone == "" || otp == "" || !Truthy(blockchainNetwork) {
      return Response(400, "Phone, OTP, and blockchainNetwork required"), None;
    }
    var check := CheckCode(store.docs, phone, otp, now);
    if check.Err? {
      return Response(400, check.message), None;
    }
    store.MarkUsed(check.value);
    if user == null {
      return Response(404, "User not found"), None;
    }
    user.MarkPhoneVerified();
    if activation.Ok? {
      txHash := Some(activation.value);
    }
    resp := Response(200, "OTP verified, phone number confirmed");
  }

  // ---- verifyOTP (compiled) and its deployment summary ----

  /** `deploymentSummary`. */
  datatype Summary = Summary(totalChains: nat, successful: nat, failed: int)

  /** The summary's success test: a string entry not starting with "Error". */
  predicate CountedAsSuccess(e: BlockchainDeploy.Entry)
  {
    e.Text? && !StartsWith(e.text, "Error")
  }

  function SuccessKeys(results: map<string, BlockchainDeploy.Entry>): set<string>
  {
    set k | k in results && CountedAsSuccess(results[k])
  }

  /**
   * The summary as written: successes counted over the values of the results
   * object, failures as the number of requested chains minus the successes.
   */
  function SummaryAsWritten(results: map<string, BlockchainDeploy.Entry>, chains: seq<string>): (s: Summary)
    ensures s.totalChains == |chains| && s.successful + s.failed == |chains|
    ensures s.successful <= |results|
  {
    assert SuccessKeys(results) <= results.Keys;
    SubsetCardinality(SuccessKeys(results), results.Keys);
    Summary(|chains|, |SuccessKeys(results)|, |chains| - |SuccessKeys(results)|)
  }

  lemma {:induction false} SubsetCardinality<T>(a: set<T>, b: set<T>)
    requires a <= b
    ensures |a| <= |b|
  {
    if a != {} {
      var x :| x in a;
      SubsetCardinality(a - {x}, b - {x});
    }
  }

  lemma {:induction false} DistinctElements<T>(s: seq<T>)
    ensures |set x | x in s| <= |s|
  {
    if s != [] {
      var k := |s| - 1;
      DistinctElements(s[..k]);
      assert (set x | x in s) == (set x | x in s[..k]) + {s[k]} by {
        assert s == s[..k] + [s[k]];
      }
    }
  }

  /** On the results of a deployment over the same chains the failure count is never negative. */
  lemma SummaryFailuresNonNegative(cx: BlockchainDeploy.DeployContext, chains: seq<string>,
                                   io: nat -> BlockchainDeploy.ChainIo)
    ensures SummaryAsWritten(BlockchainDeploy.Deployed(cx, chains, io), chains).failed >= 0
  {
    var results := BlockchainDeploy.Deployed(cx, chains, io);
    BlockchainDeploy.DeployedKeys(cx, chains, io);
    SubsetCardinality(results.Keys, set c | c in chains);
    DistinctElements(chains);
  }

  /**
   * As written, a compiled EVM chain whose sponsored send succeeds is counted
   * as failed: its entry is the `{hash, userOpHash}` object, not a string.
   */
  lemma EvmSuccessCountedAsFailure(cx: BlockchainDeploy.DeployContext, chain: string,
                                   io: nat -> BlockchainDeploy.ChainIo)
    requires cx.build == BlockchainDeploy.Compiled && BlockchainDeploy.EvmReady(cx, chain)
    requires io(0).userOp.Ok? && io(0).sponsored.Ok? && io(0).sponsored.value.Some?
    ensures BlockchainDeploy.AttemptChain(cx, chain, io(0)).outcome.Ok?
    ensures SummaryAsWritten(BlockchainDeploy.Deployed(cx, [chain], io), [chain]) == Summary(1, 0, 1)
  {
    BlockchainDeploy.CompiledEvmSuccess(cx, chain, io(0));
    var results := BlockchainDeploy.Deployed(cx, [chain], io);
    var e := BlockchainDeploy.EntryOf(BlockchainDeploy.AttemptChain(cx, chain, io(0)));
    assert [chain][..0] == [];
    assert BlockchainDeploy.Deployed(cx, [chain][..0], io) == map[];
    assert results == SetProperty(BlockchainDeploy.Deployed(cx, [chain][..0], io), [chain][0], e);
    assert forall k :: k in results ==> results[k] == e;
    assert SuccessKeys(results) == {};
  }

  /**
   * As written, a chain requested twice is counted as failed at least once,
   * even when both attempts succeed: the results object has one key for it.
   */
  lemma RepeatedChainCountedAsFailure(cx: BlockchainDeploy.DeployContext, chain: string,
                                      io: nat -> BlockchainDeploy.ChainIo)
    ensures SummaryAsWritten(BlockchainDeploy.Deployed(cx, [chain, chain], io), [chain, chain]).failed >= 1
  {
    var results := BlockchainDeploy.Deployed(cx, [chain, chain], io);
    BlockchainDeploy.DeployedKeys(cx, [chain, chain], io);
    assert (set c | c in [chain, chain]) == {chain};
    SubsetCardinality(results.Keys, {chain});
  }

  /** The number of attempts over `chains` that succeeded. */
  function SucceededAttempts(cx: BlockchainDeploy.DeployContext, chains: seq<string>,
                             io: nat -> BlockchainDeploy.ChainIo): (n: nat)
    ensures n <= |chains|
  {
    if chains == [] then 0
    else
      var k := |chains| - 1;
      SucceededAttempts(cx, chains[..k], io)
      + (if BlockchainDeploy.AttemptChain(cx, chains[k], io(k)).outcome.Ok? then 1 else 0)
  }

  /** The number of attempts over `chains` that failed. */
  function FailedAttempts(cx: BlockchainDeploy.DeployContext, chains: seq<string>,
                          io: nat -> BlockchainDeploy.ChainIo): nat
  {
    if chains == [] then 0
    else
      var k := |chains| - 1;
      FailedAttempts(cx, chains[..k], io)
      + (if BlockchainDeploy.AttemptChain(cx, chains[k], io(k)).outcome.Err? then 1 else 0)
  }

  /** The summary as evidently intended: one count per requested chain, by the outcome of its attempt. */
  function SummaryIntended(cx: BlockchainDeploy.DeployContext, chains: seq<string>,
                           io: nat -> BlockchainDeploy.ChainIo): Summary
  {
    var n := SucceededAttempts(cx, chains, io);
    Summary(|chains|, n, |chains| - n)
  }

  /** In the intended summary every requested chain is counted once: failures are exactly the failed attempts. */
  lemma {:induction false} IntendedSummaryCountsAttempts(cx: BlockchainDeploy.DeployContext, chains: seq<string>,
                                                        io: nat -> BlockchainDeploy.ChainIo)
    ensures var s := SummaryIntended(cx, chains, io);
            s.failed == FailedAttempts(cx, chains, io) && s.successful + s.failed == |chains|
  {
    if chains != [] {
      IntendedSummaryCountsAttempts(cx, chains[..|chains| - 1], io);
    }
  }

  /** The intended summary counts a successful EVM chain, and both attempts of a repeated chain. */
  lemma IntendedSummaryCountsEvmAndRepeats(cx: BlockchainDeploy.DeployContext, chain: string,
                                           io: nat -> BlockchainDeploy.ChainIo)
    requires cx.build == BlockchainDeploy.Compiled && BlockchainDeploy.EvmReady(cx, chain)
    requires forall k :: io(k).userOp.Ok? && io(k).sponsored.Ok? && io(k).sponsored.value.Some?
    ensures SummaryIntended(cx, [chain], io) == Summary(1, 1, 0)
    ensures SummaryIntended(cx, [chain, chain], io) == Summary(2, 2, 0)
  {
    BlockchainDeploy.CompiledEvmSuccess(cx, chain, io(0));
    BlockchainDeploy.CompiledEvmSuccess(cx, chain, io(1));
    assert [chain][..0] == [];
    assert [chain, chain][..1] == [chain];
  }

  /** The compiled `verifyOTP`'s user update: verified, and a smart wallet stored when it has none. */
  method ConfirmUser(user: Onboarding.User, smartWallet: Result<string>)
    modifies user
    ensures user.Record()
            == Onboarding.PhoneVerified(old(user.Record())).(smartWalletAddress :=
                 if !Present(old(user.smartWalletAddress)) && smartWallet.Ok? then Some(smartWallet.value)
                 else old(user.smartWalletAddress))
  {
    user.MarkPhoneVerified();
    if !Present(user.smartWalletAddress) && smartWallet.Ok? {
      user.SetSmartWallet(smartWallet.value);
    }
  }

  /**
   * The compiled `verifyOTP`: the request check, normalization, the code check
   * against the normalized phone, then the user (found by the normalized
   * phone), a smart wallet when it has none, the deployment and the summary.
   */
  method VerifyOtpCompiled(store: OtpStore, phone: JsValue, otp: string, networks: Option<seq<string>>,
                           user: Onboarding.User?, smartWallet: Result<string>, tables: Tables,
                           deployMainnet: Option<string>, io: nat -> BlockchainDeploy.ChainIo, now: int)
    returns (resp: Response, summary: Option<Summary>, results: map<string, BlockchainDeploy.Entry>)
    modifies store, user
    ensures !Truthy(phone) || otp == "" || networks.None? || networks.value == []
            ==> resp == Response(400, "Phone, OTP, and blockchainNetworks are required")
                && store.docs == old(store.docs)
    ensures resp.status == 400 ==> store.docs == old(store.docs) && summary.None?
    ensures Truthy(phone) && otp != "" && networks.Some? && networks.value != []
            && PhoneNumbers.NormalizeKenyanPhone(phone).Err?
            ==> resp == Response(400, "Invalid phone number format")
    ensures Truthy(phone) && otp != "" && networks.Some? && networks.value != []
            && PhoneNumbers.NormalizeKenyanPhone(phone).Ok?
            ==> var n := PhoneNumbers.NormalizeKenyanPhone(phone).value;
                (CheckCode(old(store.docs), n, otp, now).Err?
                 ==> resp == Response(400, CheckCode(old(store.docs), n, otp, now).message))
                && (CheckCode(old(store.docs), n, otp, now).Ok?
                    ==> var i := CheckCode(old(store.docs), n, otp, now).value;
                        store.docs == old(store.docs)[i := old(store.docs)[i].(verified := true)])
                && (CheckCode(old(store.docs), n, otp, now).Ok? && user == null
                    ==> resp == Response(404, "User not found"))
                && (CheckCode(old(store.docs), n, otp, now).Ok? && user != null ==> resp.status == 200)
    ensures resp.status == 200 ==> (
              networks.Some? && user != null && summary.Some?
              && resp == Response(200, "OTP verified, phone number confirmed")
              && PhoneNumbers.NormalizeKenyanPhone(phone).Ok?
              && CheckCode(old(store.docs), PhoneNumbers.NormalizeKenyanPhone(phone).value, otp, now).Ok?
              && results == BlockchainDeploy.Deployed(
                   BlockchainDeploy.DeployContext(BlockchainDeploy.Compiled, tables, deployMainnet,
                                                  user.walletId, user.walletAddress, user.polkadotMnemonic),
                   networks.value, io)
              && summary.value == SummaryAsWritten(results, networks.value)
              && user.Record()
                 == Onboarding.PhoneVerified(old(user.Record())).(smartWalletAddress :=
                      if !Present(old(user.smartWalletAddress)) && smartWallet.Ok? then Some(smartWallet.value)
                      else old(user.smartWalletAddress)))
    ensures resp.status != 200 && user != null ==> user.Record() == old(user.Record())
  {
    summary := None;
    results := map[];
    if !Truthy(phone) || otp == "" || networks.None? || networks.value == [] {
      return Response(400, "Phone, OTP, and blockchainNetworks are required"), None, map[];
    }
    var normalized := PhoneNumbers.NormalizeKenyanPhone(phone);
    if normalized.Err? {
      return Response(400, "Invalid phone number format"), None, map[];
    }
    var check := CheckCode(store.docs, normalized.value, otp, now);
    if check.Err? {
      return Response(400, check.message), None, map[];
    }
    store.MarkUsed(check.value);
    if user == null {
      return Response(404, "User not found"), None, map[];
    }
    ConfirmUser(user, smartWallet);
    var cx := BlockchainDeploy.DeployContext(BlockchainDeploy.Compiled, tables, deployMainnet,
                                             user.walletId, user.walletAddress, user.polkadotMnemonic);
    var calls;
    results, calls := BlockchainDeploy.DeployWalletOnNetworks(cx, networks.value, io);
    summary := Some(SummaryAsWritten(results, networks.value));
    resp := Response(200, "OTP verified, phone number confirmed");
  }

  /**
   * As written, the codes are stored under the phone exactly as sent while the
   * compiled `verifyOTP` looks them up under the normalized phone: a code sent
   * to the local form "07…" of a number is "Invalid code" when verified with
   * that same local form.
   */
  lemma LocalFormCodeIsNotFound(s: string, code: string, sentAt: int, now: int)
    requires PhoneNumbers.MobileSubscriber(s)
    ensures PhoneNumbers.NormalizeKenyanPhone(Str("0" + s)) == Ok("+254" + s)
    ensures CheckCode(AfterSend([], "0" + s, code, sentAt), "+254" + s, code, now) == Err("Invalid code")
  {
    PhoneNumbers.PresentationsAgree(s);
    assert ("0" + s)[0] != ("+254" + s)[0];
  }

  /** The sending side as evidently intended: the code is stored under the normalized phone when there is one. */
  function AfterSendIntended(docs: seq<OtpDoc>, phone: string, code: string, now: int): seq<OtpDoc>
  {
    match PhoneNumbers.NormalizeKenyanPhone(Str(phone))
    case Ok(n) => AfterSend(docs, n, code, now)
    case Err(_) => AfterSend(docs, phone, code, now)
  }

  /**
   * With the correction, a code sent to any presentation of a number is found
   * by the compiled `verifyOTP` for any presentation of the same number until it expires.
   */
  lemma IntendedCodeIsFound(docs: seq<OtpDoc>, sentTo: string, verifiedAs: JsValue, code: string,
                            sentAt: int, now: int)
    requires PhoneNumbers.NormalizeKenyanPhone(Str(sentTo)).Ok?
    requires PhoneNumbers.NormalizeKenyanPhone(verifiedAs) == PhoneNumbers.NormalizeKenyanPhone(Str(sentTo))
    requires sentAt <= now <= sentAt + OtpLifetime
    ensures var after := AfterSendIntended(docs, sentTo, code, sentAt);
            CheckCode(after, PhoneNumbers.NormalizeKenyanPhone(verifiedAs).value, code, now) == Ok(|after| - 1)
  {
  }
}
