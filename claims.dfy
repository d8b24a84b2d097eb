/**
 * The claims controller: the escrow payout with its 120% gas limit,
 * `createClaim` (the eligibility checks, the claim number, the first audit
 * entry and the link from the policy), `approveClaimAndPayout` (the `paid`
 * transition) and the `getClaim` guard. Database lookups, the address check
 * and the escrow contract are oracle inputs.
 */
module Claims {
  import opened Js

  /** The claim statuses of the claim schema. */
  datatype ClaimStatus = Submitted | UnderReview | Approved | Rejected | Paid | Closed

  /** The policy statuses of the policy schema. */
  datatype PolicyStatus = Active | Paused | Expired | Cancelled

  /** The identifiers a decoded token may carry: `_id`, `id` and `userId`. */
  datatype AuthUser = AuthUser(objectId: JsValue, id: JsValue, userId: JsValue)

  /** `req.user?._id || req.user?.id || req.user?.userId`. */
  function AuthUserId(user: Option<AuthUser>): (r: JsValue)
    ensures Truthy(r) <==> user.Some? && (Truthy(user.value.objectId) || Truthy(user.value.id) || Truthy(user.value.userId))
    ensures Truthy(r) ==> r == user.value.objectId || r == user.value.id || r == user.value.userId
    ensures user.Some? && Truthy(user.value.objectId) ==> r == user.value.objectId
  {
    match user
    case None => Undefined
    case Some(u) => OrValue(OrValue(u.objectId, u.id), u.userId)
  }

  /** A value as a template literal writes it (an object as `[object Object]`). */
  function TemplateText(v: JsValue): string
  {
    match v
    case Undefined => "undefined"
    case Null => "null"
    case Bool(b) => if b then "true" else "false"
    case Num(n) => if n < 0 then "-" + DecimalString(-n) else DecimalString(n)
    case Str(s) => s
    case Composite => "[object Object]"
  }

  // ---- escrow payout ----

  /** `gasEstimate * 120n / 100n`. */
  function PayoutGasLimit(estimate: nat): (limit: nat)
    ensures 100 * limit <= 120 * estimate < 100 * limit + 100
  {
    estimate * 120 / 100
  }

  /** The limit is the estimate plus a fifth of it, rounded down: never below the estimate. */
  lemma PayoutGasLimitAddsAFifth(estimate: nat)
    ensures PayoutGasLimit(estimate) == estimate + estimate / 5
    ensures estimate <= PayoutGasLimit(estimate)
  {
    var q := estimate / 5;
    var r := estimate % 5;
    assert estimate == 5 * q + r;
    assert 120 * estimate == 100 * (6 * q + r) + 20 * r;
  }

  /** A larger estimate never yields a smaller limit. */
  lemma PayoutGasLimitMonotone(a: nat, b: nat)
    requires a <= b
    ensures PayoutGasLimit(a) <= PayoutGasLimit(b)
  {
    PayoutGasLimitAddsAFifth(a);
    PayoutGasLimitAddsAFifth(b);
    assert a / 5 <= b / 5;
  }

  /** The receipt of the payout transaction. */
  datatype Receipt = Receipt(hash: string, blockNumber: nat)

  /**
   * The escrow contract: its gas estimate for `payoutClaim(id)` and the outcome
   * of sending `payoutClaim(id)` with a given gas limit and waiting for it.
   */
  datatype EscrowIo = EscrowIo(estimate: JsValue -> Result<nat>, send: (JsValue, nat) -> Result<Receipt>)

  /** `payoutFromEscrow(claimId)`: estimate, then send with the 120% limit. */
  function PayoutFromEscrow(claimId: JsValue, escrow: EscrowIo): (r: Result<Receipt>)
    ensures escrow.estimate(claimId).Err? ==> r == Err(escrow.estimate(claimId).message)
    ensures r.Ok? ==> escrow.estimate(claimId).Ok?
                      && r == escrow.send(claimId, escrow.estimate(claimId).value + escrow.estimate(claimId).value / 5)
  {
    match escrow.estimate(claimId)
    case Err(m) => Err(m)
    case Ok(estimate) =>
      PayoutGasLimitAddsAFifth(estimate);
      escrow.send(claimId, PayoutGasLimit(estimate))
  }

  // ---- records ----

  /** One audit-trail entry; `user` is the acting user's id. */
  datatype AuditEntry = AuditEntry(date: int, action: string, user: JsValue, note: string)

  /** The request body fields `createClaim` copies into the claim. */
  datatype ClaimBody = ClaimBody(policyId: JsValue, claimType: JsValue, incidentDate: JsValue,
                                 description: JsValue, location: JsValue, amountClaimed: JsValue)

  /** A stored claim. */
  datatype ClaimRecord = ClaimRecord(user: JsValue, policyId: string, claimNumber: string, bodaRegNo: string,
                                     body: ClaimBody, amountApproved: JsValue, status: ClaimStatus,
                                     auditTrail: seq<AuditEntry>)

  /** How many entries of a trail record the given action. */
  function CountAction(trail: seq<AuditEntry>, action: string): (n: nat)
    ensures n <= |trail|
  {
    if trail == [] then 0
    else CountAction(trail[..|trail| - 1], action) + (if trail[|trail| - 1].action == action then 1 else 0)
  }

  lemma {:induction false} CountActionAppend(trail: seq<AuditEntry>, e: AuditEntry, action: string)
    ensures CountAction(trail + [e], action) == CountAction(trail, action) + (if e.action == action then 1 else 0)
  {
    assert (trail + [e])[..|trail|] == trail;
  }

  // ---- claim numbers ----

  /** `CLM-${policyNumber}-${Date.now().toString().slice(-6)}`. */
  function ClaimNumber(policyNumber: string, now: nat): string
  {
    "CLM-" + policyNumber + "-" + LastChars(DecimalString(now), 6)
  }

  /** Reads a claim number back into its policy number and its time suffix. */
  function ParseClaimNumber(claimNumber: string): Option<(string, string)>
  {
    if !StartsWith(claimNumber, "CLM-") then None
    else
      var rest := claimNumber[4..];
      match LastIndexOf(rest, '-')
      case None => None
      case Some(i) => Some((rest[..i], rest[i + 1..]))
  }

  /** The suffix is the last six digits of the time: its value is the time modulo 10^6. */
  lemma ClaimNumberSuffix(now: nat)
    ensures var suffix := LastChars(DecimalString(now), 6);
            1 <= |suffix| <= 6 && AllDigits(suffix) && DigitsValue(suffix) == now % 1000000
  {
    var s := DecimalString(now);
    var suffix := LastChars(s, 6);
    DigitsValueOfDecimalString(now);
    Pow10Small();
    if |s| < 6 {
      assert suffix == s;
      DigitsBound(s);
      Pow10Monotone(|s|, 5);
      ModUnique(now, 1000000, 0, now);
    } else {
      SuffixValue(s, 6);
    }
  }

  lemma Pow10Small()
    ensures Pow10(5) == 100000 && Pow10(6) == 1000000
  {
    assert Pow10(1) == 10;
    assert Pow10(2) == 100;
    assert Pow10(3) == 1000;
    assert Pow10(4) == 10000;
  }

  lemma {:induction false} DigitsBound(s: string)
    requires AllDigits(s)
    ensures DigitsValue(s) < Pow10(|s|)
  {
    if s != [] {
      DigitsBound(s[..|s| - 1]);
    }
  }

  lemma {:induction false} Pow10Monotone(a: nat, b: nat)
    requires a <= b
    ensures Pow10(a) <= Pow10(b)
  {
    if a < b {
      Pow10Monotone(a, b - 1);
    }
  }

  /** The last k digits of a numeral are worth its value modulo 10^k. */
  lemma {:induction false} SuffixValue(s: string, k: nat)
    requires AllDigits(s) && k <= |s|
    ensures AllDigits(s[|s| - k..]) && DigitsValue(s[|s| - k..]) == DigitsValue(s) % Pow10(k)
  {
    var t := s[|s| - k..];
    assert forall i :: 0 <= i < |t| ==> t[i] == s[|s| - k + i];
    if k > 0 {
      var init := s[..|s| - 1];
      var d := (s[|s| - 1] - '0') as nat;
      assert t[..|t| - 1] == init[|init| - (k - 1)..];
      assert t[|t| - 1] == s[|s| - 1];
      SuffixValue(init, k - 1);
      var a := DigitsValue(init);
      var p := Pow10(k - 1);
      assert DigitsValue(s) == 10 * a + d;
      assert DigitsValue(t) == 10 * DigitsValue(t[..|t| - 1]) + d;
      assert DigitsValue(t[..|t| - 1]) == a % p;
      assert Pow10(k) == 10 * p;
      ModStep(a, d, p);
    }
  }

  lemma ModStep(a: nat, d: nat, p: nat)
    requires d < 10 && p >= 1
    ensures (10 * a + d) % (10 * p) == 10 * (a % p) + d
  {
    var q := a / p;
    var r := a % p;
    assert a == q * p + r;
    assert 10 * a + d == q * (10 * p) + (10 * r + d) by {
      assert 10 * (q * p) == q * (10 * p);
    }
    assert 10 * r + d < 10 * p;
    ModUnique(10 * a + d, 10 * p, q, 10 * r + d);
  }

  /** Euclidean division has one quotient and one remainder. */
  lemma ModUnique(x: int, m: int, q: int, r: int)
    requires m > 0 && 0 <= r < m && x == q * m + r
    ensures x % m == r
  {
    var q' := x / m;
    var r' := x % m;
    assert x == q' * m + r';
    assert (q - q') * m == r' - r by {
      assert (q - q') * m == q * m - q' * m;
    }
    assert (q' - q) * m == r - r' by {
      assert (q' - q) * m == -((q - q') * m);
    }
    if q > q' {
      MulAtLeast(q - q', m);
    } else if q < q' {
      MulAtLeast(q' - q, m);
    }
  }

  lemma MulAtLeast(k: int, m: int)
    requires k >= 1 && m > 0
    ensures k * m >= m
  {
    assert k * m == (k - 1) * m + m;
    assert (k - 1) * m >= 0;
  }

  /** In p + "-" + d, with no dash in d, the last dash is the one after p. */
  lemma LastDashAfter(p: string, d: string)
    requires forall k :: 0 <= k < |d| ==> d[k] != '-'
    ensures var rest := p + "-" + d;
            LastIndexOf(rest, '-') == Some(|p|) && rest[..|p|] == p && rest[|p| + 1..] == d
  {
    var rest := p + "-" + d;
    assert rest[|p|] == '-';
    assert forall j :: |p| < j < |rest| ==> rest[j] == d[j - |p| - 1];
  }

  /** "CLM-" + p + "-" + d, with d all digits, parses back to p and d. */
  lemma ParseJoined(p: string, d: string)
    requires AllDigits(d)
    ensures ParseClaimNumber("CLM-" + p + "-" + d) == Some((p, d))
  {
    forall k | 0 <= k < |d| ensures d[k] != '-' {
      assert IsDigit(d[k]);
    }
    assert "CLM-" + p + "-" + d == "CLM-" + (p + "-" + d);
    var rest := p + "-" + d;
    LastDashAfter(p, d);
    assert ("CLM-" + rest)[4..] == rest;
    assert ("CLM-" + rest)[..4] == "CLM-";
  }

  /** A claim number reads back as the policy number and the time suffix, whatever dashes the policy number holds. */
  lemma ClaimNumberRoundTrip(policyNumber: string, now: nat)
    ensures ParseClaimNumber(ClaimNumber(policyNumber, now))
            == Some((policyNumber, LastChars(DecimalString(now), 6)))
  {
    var suffix := LastChars(DecimalString(now), 6);
    SuffixDigits(DecimalString(now), 6);
    ParseJoined(policyNumber, suffix);
  }

  /** The last characters of a digit string are digits. */
  lemma SuffixDigits(s: string, k: nat)
    requires AllDigits(s)
    ensures AllDigits(LastChars(s, k))
  {
    var r := LastChars(s, k);
    forall j | 0 <= j < |r| ensures IsDigit(r[j]) {
      assert r[j] == s[|s| - |r| + j];
    }
  }

  // ---- createClaim ----

  /** A policy as `createClaim` sees it; only its `claims` list is updated. */
  class Policy {
    const id: string
    const policyNumber: string
    const bodaRegNo: string
    const status: PolicyStatus
    const isActive: bool
    var claims: seq<string>

    constructor(id: string, policyNumber: string, bodaRegNo: string, status: PolicyStatus, isActive: bool,
                claims: seq<string>)
      ensures this.id == id && this.policyNumber == policyNumber && this.bodaRegNo == bodaRegNo
      ensures this.status == status && this.isActive == isActive && this.claims == claims
    {
      this.id := id;
      this.policyNumber := policyNumber;
      this.bodaRegNo := bodaRegNo;
      this.status := status;
      this.isActive := isActive;
      this.claims := claims;
    }

    /** `$push: { claims: claimId }`. */
    method PushClaim(claimId: string)
      modifies this
      ensures claims == old(claims) + [claimId]
    {
      claims := claims + [claimId];
    }
  }

  /**
   * The checks before a claim is created, given the policy found for
   * `{ _id: policyId, user: userId }` (null when none).
   */
  function CreateGuard(userId: JsValue, body: ClaimBody, policy: Policy?): (r: Option<Response>)
    reads policy
    ensures r == Some(Response(401, "Not authenticated")) <==> !Truthy(userId)
    ensures r == Some(Response(400, "Missing required fields."))
            <==> Truthy(userId) && !(Truthy(body.policyId) && Truthy(body.claimType)
                                     && Truthy(body.incidentDate) && Truthy(body.amountClaimed))
    ensures r.None? <==> Truthy(userId) && Truthy(body.policyId) && Truthy(body.claimType)
                         && Truthy(body.incidentDate) && Truthy(body.amountClaimed)
                         && policy != null && policy.isActive && policy.status == Active
    ensures r.Some? && r.value.status == 404 <==> r == Some(Response(404, "Policy not found or not owned by this user."))
  {
    if !Truthy(userId) then Some(Response(401, "Not authenticated"))
    else if !(Truthy(body.policyId) && Truthy(body.claimType) && Truthy(body.incidentDate) && Truthy(body.amountClaimed))
    then Some(Response(400, "Missing required fields."))
    else if policy == null then Some(Response(404, "Policy not found or not owned by this user."))
    else if !policy.isActive || policy.status != Active
    then
      var m := "Policy " + policy.policyNumber + " is inactive.";
      assert m[0] != "Missing required fields."[0];
      Some(Response(400, m))
    else None
  }

  /** The claim `createClaim` builds for an eligible policy at time now. */
  function NewClaim(userId: JsValue, policyId: string, policyNumber: string, bodaRegNo: string,
                    body: ClaimBody, now: nat): (c: ClaimRecord)
    ensures c.status == Submitted && c.amountApproved == Undefined && c.user == userId
    ensures ParseClaimNumber(c.claimNumber) == Some((policyNumber, LastChars(DecimalString(now), 6)))
    ensures CountAction(c.auditTrail, "claim_created") == 1 && CountAction(c.auditTrail, "payout_completed") == 0
    ensures c.auditTrail == [AuditEntry(now, "claim_created", userId,
                                        "Claim created by user " + TemplateText(userId) + " under policy " + policyNumber)]
  {
    ClaimNumberRoundTrip(policyNumber, now);
    var entry := AuditEntry(now, "claim_created", userId,
                            "Claim created by user " + TemplateText(userId) + " under policy " + policyNumber);
    assert [entry][..0] == [];
    ClaimRecord(userId, policyId, ClaimNumber(policyNumber, now), bodaRegNo, body, Undefined, Submitted, [entry])
  }

  /**
   * `createClaim`. `policy` is what the ownership lookup found, `claimId` the
   * new claim's id and `saved` whether saving it succeeded (a failed save,
   * such as a duplicate claim number, is a 500 and the policy is unchanged).
   */
  method CreateClaim(user: Option<AuthUser>, body: ClaimBody, policy: Policy?, now: nat, claimId: string, saved: bool)
    returns (resp: Response, claim: Option<ClaimRecord>)
    modifies policy
    ensures var guard := CreateGuard(AuthUserId(user), body, policy);
            guard.Some? ==> resp == guard.value && claim.None? && (policy != null ==> policy.claims == old(policy.claims))
    ensures var guard := CreateGuard(AuthUserId(user), body, policy);
            guard.None? && !saved ==> resp == Response(500, "Failed to create claim") && claim.None?
                                      && policy.claims == old(policy.claims)
    ensures var guard := CreateGuard(AuthUserId(user), body, policy);
            guard.None? && saved ==> resp == Response(201, "Claim created successfully")
                                     && claim == Some(NewClaim(AuthUserId(user), policy.id, policy.policyNumber,
                                                               policy.bodaRegNo, body, now))
                                     && policy.claims == old(policy.claims) + [claimId]
  {
    var userId := AuthUserId(user);
    var guard := CreateGuard(userId, body, policy);
    if guard.Some? {
      return guard.value, None;
    }
    var c := NewClaim(userId, policy.id, policy.policyNumber, policy.bodaRegNo, body, now);
    if !saved {
      return Response(500, "Failed to create claim"), None;
    }
    policy.PushClaim(claimId);
    resp, claim := Response(201, "Claim created successfully"), Some(c);
  }

  // ---- approveClaimAndPayout ----

  /** The populated policy of a claim: the rider's wallet and the escrow claim id. */
  datatype PolicyLink = PolicyLink(rider: JsValue, claimId: JsValue)

  /** `policy.claimId || 0`. */
  function EscrowClaimId(policy: PolicyLink): (id: JsValue)
    ensures Truthy(id)  ==> id == policy.claimId
    ensures !Truthy(policy.claimId) ==> id == Num(0)
  {
    OrValue(policy.claimId, Num(0))
  }

  /** The claim after a successful payout. */
  function PaidClaim(c: ClaimRecord, approvedAmount: JsValue, userId: JsValue, txHash: string, now: int): (p: ClaimRecord)
    ensures p.status == Paid && p.amountApproved == approvedAmount
    ensures p.auditTrail == c.auditTrail + [AuditEntry(now, "payout_completed", userId,
                                                       "Payout from escrow success. TxHash: " + txHash)]
    ensures p.(status := c.status, amountApproved := c.amountApproved, auditTrail := c.auditTrail) == c
  {
    c.(status := Paid, amountApproved := approvedAmount,
       auditTrail := c.auditTrail + [AuditEntry(now, "payout_completed", userId,
                                                "Payout from escrow success. TxHash: " + txHash)])
  }

  /**
   * A payout adds exactly one `payout_completed` entry, keeps the earlier
   * entries, and its result does not depend on the status the claim had: a
   * claim already paid, rejected or closed is paid again.
   */
  lemma PaidClaimAppendsOnePayout(c: ClaimRecord, approvedAmount: JsValue, userId: JsValue, txHash: string,
                                  now: int, priorStatus: ClaimStatus)
    ensures var p := PaidClaim(c, approvedAmount, userId, txHash, now);
            CountAction(p.auditTrail, "payout_completed") == CountAction(c.auditTrail, "payout_completed") + 1
            && CountAction(p.auditTrail, "claim_created") == CountAction(c.auditTrail, "claim_created")
            && p.auditTrail[..|c.auditTrail|] == c.auditTrail
    ensures PaidClaim(c.(status := priorStatus), approvedAmount, userId, txHash, now)
            == PaidClaim(c, approvedAmount, userId, txHash, now)
  {
    var e := AuditEntry(now, "payout_completed", userId, "Payout from escrow success. TxHash: " + txHash);
    CountActionAppend(c.auditTrail, e, "payout_completed");
    CountActionAppend(c.auditTrail, e, "claim_created");
  }

  /** A claim created and then paid has one creation entry followed by one payout entry. */
  lemma CreatedThenPaid(userId: JsValue, policyId: string, policyNumber: string, bodaRegNo: string, body: ClaimBody,
                        createdAt: nat, approvedAmount: JsValue, approver: JsValue, txHash: string, paidAt: int)
    ensures var p := PaidClaim(NewClaim(userId, policyId, policyNumber, bodaRegNo, body, createdAt),
                               approvedAmount, approver, txHash, paidAt);
            |p.auditTrail| == 2 && p.auditTrail[0].action == "claim_created"
            && p.auditTrail[1].action == "payout_completed" && p.status == Paid
  {
  }

  /** A stored claim whose status and trail the payout updates in place. */
  class Claim {
    var record: ClaimRecord

    constructor(record: ClaimRecord)
      ensures this.record == record
    {
      this.record := record;
    }

    /** `claim.status = "paid"; claim.amountApproved = …; claim.auditTrail.push(…)`. */
    method MarkPaid(approvedAmount: JsValue, userId: JsValue, txHash: string, now: int)
      modifies this
      ensures record == PaidClaim(old(record), approvedAmount, userId, txHash, now)
    {
      record := record.(status := Paid);
      record := record.(amountApproved := approvedAmount);
      record := record.(auditTrail := record.auditTrail + [AuditEntry(now, "payout_completed", userId,
                                                                      "Payout from escrow success. TxHash: " + txHash)]);
    }
  }

  /** The checks before a payout, given the claim found for `{ _id: id, user: userId }`. */
  function ApproveGuard(userId: JsValue, claimFound: bool, policy: Option<PolicyLink>, riderIsAddress: bool)
    : (r: Option<Response>)
    ensures r == Some(Response(401, "Not authenticated")) <==> !Truthy(userId)
    ensures r == Some(Response(404, "Claim not found or unauthorized")) <==> Truthy(userId) && !claimFound
    ensures r.None? <==> Truthy(userId) && claimFound && policy.Some? && Truthy(policy.value.rider) && riderIsAddress
  {
    if !Truthy(userId) then Some(Response(401, "Not authenticated"))
    else if !claimFound then Some(Response(404, "Claim not found or unauthorized"))
    else if policy.None? || !Truthy(policy.value.rider) || !riderIsAddress
    then Some(Response(400, "Invalid wallet address for payout"))
    else None
  }

  /**
   * `approveClaimAndPayout`. `claim` is what the ownership lookup found,
   * `policy` its populated policy and `riderIsAddress` the address check's
   * verdict on the rider, and `saved` whether `claim.save()` succeeded. `claim`
   * is the stored claim: it changes only after the payout succeeded and the save
   * went through. A failed save is the 500 of the `catch` although the escrow
   * has already paid, and the stored claim then does not record the payout.
   */
  method ApproveClaimAndPayout(user: Option<AuthUser>, claim: Claim?, policy: Option<PolicyLink>,
                               riderIsAddress: bool, approvedAmount: JsValue, escrow: EscrowIo, now: int,
                               saved: bool)
    returns (resp: Response, payout: Option<Result<Receipt>>)
    modifies claim
    ensures var guard := ApproveGuard(AuthUserId(user), claim != null, policy, riderIsAddress);
            guard.Some? ==> resp == guard.value && payout.None? && (claim != null ==> claim.record == old(claim.record))
    ensures var guard := ApproveGuard(AuthUserId(user), claim != null, policy, riderIsAddress);
            guard.None? ==> payout == Some(PayoutFromEscrow(EscrowClaimId(policy.value), escrow))
    ensures var guard := ApproveGuard(AuthUserId(user), claim != null, policy, riderIsAddress);
            guard.None? && payout.value.Err? ==> resp == Response(500, "Failed to execute payout")
                                                 && claim.record == old(claim.record)
    ensures var guard := ApproveGuard(AuthUserId(user), claim != null, policy, riderIsAddress);
            guard.None? && payout.value.Ok? && !saved ==> resp == Response(500, "Failed to execute payout")
                                                          && claim.record == old(claim.record)
    ensures var guard := ApproveGuard(AuthUserId(user), claim != null, policy, riderIsAddress);
            guard.None? && payout.value.Ok? && saved ==> resp == Response(200, "Payout executed successfully")
                                                         && claim.record == PaidClaim(old(claim.record), approvedAmount,
                                                                                      AuthUserId(user), payout.value.value.hash, now)
  {
    var userId := AuthUserId(user);
    var guard := ApproveGuard(userId, claim != null, policy, riderIsAddress);
    if guard.Some? {
      return guard.value, None;
    }
    var result := PayoutFromEscrow(EscrowClaimId(policy.value), escrow);
    payout := Some(result);
    if result.Err? {
      return Response(500, "Failed to execute payout"), payout;
    }
    if !saved {
      return Response(500, "Failed to execute payout"), payout;
    }
    claim.MarkPaid(approvedAmount, userId, result.value.hash, now);
    resp := Response(200, "Payout executed successfully");
  }

  // ---- getClaim ----

  /**
   * `getClaim`: 401 without a user id, 400 for an id the ObjectId check
   * refuses (before any lookup), 404 when the owned claim is not found.
   */
  function GetClaim(user: Option<AuthUser>, idIsValid: bool, found: Option<ClaimRecord>): (r: Result<ClaimRecord>)
    ensures r.Ok? <==> Truthy(AuthUserId(user)) && idIsValid && found.Some?
    ensures r.Ok? ==> r.value == found.value
    ensures r == Err("Not authenticated") <==> !Truthy(AuthUserId(user))
    ensures r == Err("Invalid claim ID.") <==> Truthy(AuthUserId(user)) && !idIsValid
  {
    if !Truthy(AuthUserId(user)) then Err("Not authenticated")
    else if !idIsValid then Err("Invalid claim ID.")
    else if found.None? then Err("Claim not found or unauthorized.")
    else Ok(found.value)
  }

  /** The status `getClaim` answers with. */
  function GetClaimStatus(r: Result<ClaimRecord>): (status: nat)
    ensures r.Ok? <==> status == 200
  {
    match r
    case Ok(_) => 200
    case Err(m) => if m == "Not authenticated" then 401 else if m == "Invalid claim ID." then 400 else 404
  }

  /** An invalid id is refused with 400 whatever the lookup would have found. */
  lemma InvalidIdNeverLooksUp(user: Option<AuthUser>, found1: Option<ClaimRecord>, found2: Option<ClaimRecord>)
    requires Truthy(AuthUserId(user))
    ensures GetClaim(user, false, found1) == GetClaim(user, false, found2)
    ensures GetClaimStatus(GetClaim(user, false, found1)) == 400
  {
  }
}
