/**
 * The rider's user record and the handlers that shape it: registration (the
 * TypeScript `registerUser`), the compiled `onboard`, and `updateUserProfile`,
 * `getUserProfile` and `deleteUser` from the user-management controller. The
 * onboarding steps are a dictionary from the seven step names to booleans; the
 * onboarding stage summarises how many of them are done.
 */
module Onboarding {
  import opened Js
  import PhoneNumbers

  /** `OnboardingStepKeys`, identical in the user model and the TypeScript auth controller. */
  const StepKeys: seq<string> := [
    "phoneVerified", "nameAdded", "photoAdded", "mobileMoneyLinked",
    "nationalIdAdded", "bodaRegNoAdded", "communityEndorsements"
  ]

  /** Every step name set to false, as a new user starts. */
  function InitialSteps(): (s: map<string, bool>)
    ensures s.Keys == set k | k in StepKeys
    ensures forall k :: k in s ==> !s[k]
  {
    map k | k in StepKeys :: false
  }

  /** `getOnboardingStep(user, key) === true`. */
  predicate StepDone(steps: map<string, bool>, key: string)
  {
    key in steps && steps[key]
  }

  /** The number of the given step names that are done. */
  function CountDone(keys: seq<string>, steps: map<string, bool>): (n: nat)
    ensures n <= |keys|
  {
    if keys == [] then 0
    else (if StepDone(steps, keys[0]) then 1 else 0) + CountDone(keys[1..], steps)
  }

  /** `OnboardingStepKeys.filter(key => getOnboardingStep(user, key) === true).length`. */
  function CompletedSteps(steps: map<string, bool>): nat
  {
    CountDone(StepKeys, steps)
  }

  /** `Math.min(completed + 1, OnboardingStepKeys.length)`. */
  function Stage(completed: nat): (s: nat)
    ensures 1 <= s <= |StepKeys|
    ensures s <= completed + 1 && (s == completed + 1 || s == |StepKeys|)
  {
    if completed + 1 < |StepKeys| then completed + 1 else |StepKeys|
  }

  /** Doing more steps never lowers the count. */
  lemma {:induction false} CountDoneMonotone(keys: seq<string>, a: map<string, bool>, b: map<string, bool>)
    requires forall k :: StepDone(a, k) ==> StepDone(b, k)
    ensures CountDone(keys, a) <= CountDone(keys, b)
  {
    if keys != [] {
      CountDoneMonotone(keys[1..], a, b);
    }
  }

  /** A listed step that is done is counted. */
  lemma {:induction false} CountDoneIncludes(keys: seq<string>, steps: map<string, bool>, key: string)
    requires key in keys && StepDone(steps, key)
    ensures CountDone(keys, steps) >= 1
  {
    if keys[0] != key {
      CountDoneIncludes(keys[1..], steps, key);
    }
  }

  /** Nothing is done in the initial steps. */
  lemma {:induction false} CountDoneNone(keys: seq<string>, steps: map<string, bool>)
    requires forall k :: k in steps ==> !steps[k]
    ensures CountDone(keys, steps) == 0
  {
    if keys != [] {
      CountDoneNone(keys[1..], steps);
    }
  }

  /** The persisted user document (the fields the handlers read or write). */
  datatype UserRecord = UserRecord(
    phone: string,
    phoneVerified: bool,
    walletAddress: string,
    walletId: string,
    smartWalletAddress: Option<string>,
    polkadotAddress: string,
    polkadotMnemonic: string,
    name: JsValue,
    photoUrl: JsValue,
    nationalId: JsValue,
    bodaRegNo: JsValue,
    mobileMoneyNumber: JsValue,
    coverageLevel: JsValue,
    onboardingStage: JsValue,
    onboardingSteps: map<string, bool>,
    onboardingCompleted: JsValue,
    updatedAt: int)

  /** The phone, its verification, the wallets and the Polkadot keys. */
  function Identity(r: UserRecord): (string, bool, string, string, Option<string>, string, string)
  {
    (r.phone, r.phoneVerified, r.walletAddress, r.walletId, r.smartWalletAddress, r.polkadotAddress,
     r.polkadotMnemonic)
  }

  /**
   * The record `registerUser` saves: the wallets it was given, phone not yet
   * verified, every step false, stage 1, not completed, and the schema's
   * default coverage level "basic".
   */
  function NewRecord(phone: string, walletAddress: string, walletId: string, smartWalletAddress: Option<string>,
                     polkadotAddress: string, polkadotMnemonic: string, now: int): UserRecord
  {
    UserRecord(phone, false, walletAddress, walletId, smartWalletAddress, polkadotAddress, polkadotMnemonic,
               Undefined, Undefined, Undefined, Undefined, Undefined, Str("basic"),
               Num(1), InitialSteps(), Bool(false), now)
  }

  /** A new user has no step done, and its stage 1 is the stage that formula gives for none. */
  lemma NewRecordIsAtStageOne(phone: string, walletAddress: string, walletId: string,
                              smartWalletAddress: Option<string>, polkadotAddress: string,
                              polkadotMnemonic: string, now: int)
    ensures var r := NewRecord(phone, walletAddress, walletId, smartWalletAddress, polkadotAddress,
                               polkadotMnemonic, now);
            CompletedSteps(r.onboardingSteps) == 0 && r.onboardingStage == Num(Stage(0))
            && r.onboardingSteps.Keys == set k | k in StepKeys
            && !r.phoneVerified && r.onboardingCompleted == Bool(false)
  {
    CountDoneNone(StepKeys, InitialSteps());
  }

  class User {
    var phone: string
    var phoneVerified: bool
    var walletAddress: string
    var walletId: string
    var smartWalletAddress: Option<string>
    var polkadotAddress: string
    var polkadotMnemonic: string
    var name: JsValue
    var photoUrl: JsValue
    var nationalId: JsValue
    var bodaRegNo: JsValue
    var mobileMoneyNumber: JsValue
    var coverageLevel: JsValue
    var onboardingStage: JsValue
    var onboardingSteps: map<string, bool>
    var onboardingCompleted: JsValue
    var updatedAt: int

    /** The document as it would be saved. */
    function Record(): UserRecord
      reads this
    {
      UserRecord(phone, phoneVerified, walletAddress, walletId, smartWalletAddress, polkadotAddress,
                 polkadotMnemonic, name, photoUrl, nationalId, bodaRegNo, mobileMoneyNumber, coverageLevel,
                 onboardingStage, onboardingSteps, onboardingCompleted, updatedAt)
    }

    /** `new User({...})` with the fields `registerUser` passes. */
    constructor(phone: string, walletAddress: string, walletId: string, smartWalletAddress: Option<string>,
                polkadotAddress: string, polkadotMnemonic: string, now: int)
      ensures Record() == NewRecord(phone, walletAddress, walletId, smartWalletAddress, polkadotAddress,
                                    polkadotMnemonic, now)
    {
      this.phone := phone;
      phoneVerified := false;
      this.walletAddress := walletAddress;
      this.walletId := walletId;
      this.smartWalletAddress := smartWalletAddress;
      this.polkadotAddress := polkadotAddress;
      this.polkadotMnemonic := polkadotMnemonic;
      name := Undefined;
      photoUrl := Undefined;
      nationalId := Undefined;
      bodaRegNo := Undefined;
      mobileMoneyNumber := Undefined;
      coverageLevel := Str("basic");
      onboardingStage := Num(1);
      onboardingSteps := InitialSteps();
      onboardingCompleted := Bool(false);
      updatedAt := now;
    }

    /**
     * `setOnboardingStep(user, key, value)`: `.set` on a Map, a property write
     * on a plain object; either way the dictionary maps key to value.
     */
    method SetOnboardingStep(key: string, value: bool)
      modifies this
      ensures Record() == old(Record()).(onboardingSteps := old(onboardingSteps)[key := value])
    {
      onboardingSteps := onboardingSteps[key := value];
    }

    /** The loop of `updateUserProfile` over `Object.keys(incomingSteps)`. */
    method ApplyIncomingSteps(entries: seq<(string, JsValue)>)
      modifies this
      ensures Record() == old(Record()).(onboardingSteps := ApplySteps(old(onboardingSteps), entries))
    {
      var i := 0;
      while i < |entries|
        invariant 0 <= i <= |entries|
        invariant Record() == old(Record()).(onboardingSteps := ApplySteps(old(onboardingSteps), entries[..i]))
      {
        var key := entries[i].0;
        if key in StepKeys {
          SetOnboardingStep(key, Truthy(entries[i].1));
        }
        assert entries[..i + 1] == entries[..i] + [entries[i]];
        i := i + 1;
      }
      assert entries[..i] == entries;
    }

    /** `user.field = v` for one of the profile fields. */
    method Assign(f: Field, v: JsValue)
      modifies this
      ensures Record() == WithField(old(Record()), f, v)
    {
      match f {
        case Name => name := v;
        case PhotoUrl => photoUrl := v;
        case NationalId => nationalId := v;
        case BodaRegNo => bodaRegNo := v;
        case MobileMoneyNumber => mobileMoneyNumber := v;
        case CoverageLevel => coverageLevel := v;
      }
    }

    /** The `!== undefined` overwrites of `updateUserProfile`'s scalar fields. */
    method OverwriteScalars(b: ProfileBody)
      modifies this
      ensures Record() == WithScalars(old(Record()), b)
    {
      if b.name != Undefined { Assign(Name, b.name); }
      if b.photoUrl != Undefined { Assign(PhotoUrl, b.photoUrl); }
      if b.nationalId != Undefined { Assign(NationalId, b.nationalId); }
      if b.bodaRegNo != Undefined { Assign(BodaRegNo, b.bodaRegNo); }
      if b.mobileMoneyNumber != Undefined { Assign(MobileMoneyNumber, b.mobileMoneyNumber); }
      if b.coverageLevel != Undefined { Assign(CoverageLevel, b.coverageLevel); }
    }

    /** The verbatim stage and completed flag of `updateUserProfile`, then `updatedAt`. */
    method OverwriteProgress(b: ProfileBody, now: int)
      modifies this
      ensures Record() == WithProgress(old(Record()), b, now)
    {
      if b.onboardingStage != Undefined { onboardingStage := b.onboardingStage; }
      if b.onboardingCompleted != Undefined { onboardingCompleted := b.onboardingCompleted; }
      updatedAt := now;
    }

    /** One `if (field) { user.field = field; setOnboardingStep(...) }` block of `onboard`. */
    method Provide(f: Field, v: JsValue)
      modifies this
      ensures Record() == Provided(old(Record()), f, v)
    {
      Assign(f, v);
      if StepFor(f).Some? {
        SetOnboardingStep(StepFor(f).value, true);
      }
    }

    /** The `phone` block of `onboard`. */
    method ProvidePhone(v: JsValue)
      modifies this
      ensures Record() == PhoneProvided(old(Record()), v)
    {
      if v.Str? {
        phone := v.s;
      }
      SetOnboardingStep("phoneVerified", true);
    }

    /** The end of `onboard`: the stage recomputed from the steps, and completion when a field was given. */
    method ConcludeOnboarding(anyFieldProvided: bool)
      modifies this
      ensures Record() == Concluded(old(Record()), anyFieldProvided)
    {
      onboardingStage := Num(Stage(CompletedSteps(onboardingSteps)));
      if anyFieldProvided {
        onboardingCompleted := Bool(true);
      }
    }

    /** What `verifyOTP` does to the user: phone verified, and the phone and mobile-money steps done. */
    method MarkPhoneVerified()
      modifies this
      ensures Record() == PhoneVerified(old(Record()))
    {
      phoneVerified := true;
      onboardingSteps := onboardingSteps["phoneVerified" := true];
      onboardingSteps := onboardingSteps["mobileMoneyLinked" := true];
    }

    /** The compiled `verifyOTP` stores a newly created smart wallet address. */
    method SetSmartWallet(address: string)
      modifies this
      ensures Record() == old(Record()).(smartWalletAddress := Some(address))
    {
      smartWalletAddress := Some(address);
    }
  }

  function PhoneVerified(r: UserRecord): UserRecord
  {
    r.(phoneVerified := true,
       onboardingSteps := r.onboardingSteps["phoneVerified" := true]["mobileMoneyLinked" := true])
  }

  /** After verification at least two steps are done, so the onboarding formula gives stage 3 or more. */
  lemma PhoneVerifiedCountsTwoSteps(r: UserRecord)
    ensures var s := PhoneVerified(r).onboardingSteps;
            PhoneVerified(r).phoneVerified && StepDone(s, "phoneVerified") && StepDone(s, "mobileMoneyLinked")
            && CompletedSteps(s) >= 2 && Stage(CompletedSteps(s)) >= 3
  {
    var s := PhoneVerified(r).onboardingSteps;
    assert StepKeys[0] == "phoneVerified";
    assert StepKeys[1..][2] == "mobileMoneyLinked";
    CountDoneIncludes(StepKeys[1..], s, "mobileMoneyLinked");
  }

  // ---- updateUserProfile ----

  /** One step of the loop: a listed key is set to `Boolean(value)`, any other key is skipped. */
  function ApplyStep(steps: map<string, bool>, entry: (string, JsValue)): map<string, bool>
  {
    if entry.0 in StepKeys then steps[entry.0 := Truthy(entry.1)] else steps
  }

  /** The steps after the loop over the incoming entries, in order. */
  function ApplySteps(steps: map<string, bool>, entries: seq<(string, JsValue)>): map<string, bool>
  {
    if entries == [] then steps
    else ApplyStep(ApplySteps(steps, entries[..|entries| - 1]), entries[|entries| - 1])
  }

  /** The value of the last incoming entry for key, if any. */
  function LastValue(entries: seq<(string, JsValue)>, key: string): (v: Option<JsValue>)
    ensures v.None? <==> forall i :: 0 <= i < |entries| ==> entries[i].0 != key
  {
    if entries == [] then None
    else if entries[|entries| - 1].0 == key then Some(entries[|entries| - 1].1)
    else
      var v := LastValue(entries[..|entries| - 1], key);
      assert forall i :: 0 <= i < |entries| - 1 ==> entries[..|entries| - 1][i] == entries[i];
      v
  }

  /**
   * A key outside `OnboardingStepKeys`, or a listed key no entry names, keeps
   * its value (or its absence); a listed key takes `Boolean` of the last value
   * given for it.
   */
  lemma {:induction false} ApplyStepsEffect(steps: map<string, bool>, entries: seq<(string, JsValue)>, key: string)
    ensures key !in StepKeys || LastValue(entries, key).None?
            ==> (key in ApplySteps(steps, entries) <==> key in steps)
                && (key in steps ==> ApplySteps(steps, entries)[key] == steps[key])
    ensures key in StepKeys && LastValue(entries, key).Some?
            ==> key in ApplySteps(steps, entries)
                && ApplySteps(steps, entries)[key] == Truthy(LastValue(entries, key).value)
  {
    if entries != [] {
      ApplyStepsEffect(steps, entries[..|entries| - 1], key);
    }
  }

  /** The request body of `updateUserProfile`; `incomingSteps` is None unless it is a non-null object. */
  datatype ProfileBody = ProfileBody(
    name: JsValue,
    photoUrl: JsValue,
    nationalId: JsValue,
    bodaRegNo: JsValue,
    mobileMoneyNumber: JsValue,
    coverageLevel: JsValue,
    incomingSteps: Option<seq<(string, JsValue)>>,
    onboardingStage: JsValue,
    onboardingCompleted: JsValue)

  /** `if (v !== undefined) field = v`. */
  function Overwrite(current: JsValue, v: JsValue): JsValue
  {
    if v != Undefined then v else current
  }

  /** The body's value for one of the profile fields. */
  function FieldOf(b: ProfileBody, f: Field): JsValue
  {
    match f
    case Name => b.name
    case PhotoUrl => b.photoUrl
    case NationalId => b.nationalId
    case BodaRegNo => b.bodaRegNo
    case MobileMoneyNumber => b.mobileMoneyNumber
    case CoverageLevel => b.coverageLevel
  }

  /** `if (v !== undefined) user.field = v`. */
  function OverwriteIf(r: UserRecord, f: Field, v: JsValue): UserRecord
  {
    if v != Undefined then WithField(r, f, v) else r
  }

  /** The six scalar fields, each overwritten when the body defines it. */
  function WithScalars(r: UserRecord, b: ProfileBody): UserRecord
  {
    var r1 := OverwriteIf(r, Name, b.name);
    var r2 := OverwriteIf(r1, PhotoUrl, b.photoUrl);
    var r3 := OverwriteIf(r2, NationalId, b.nationalId);
    var r4 := OverwriteIf(r3, BodaRegNo, b.bodaRegNo);
    var r5 := OverwriteIf(r4, MobileMoneyNumber, b.mobileMoneyNumber);
    OverwriteIf(r5, CoverageLevel, b.coverageLevel)
  }

  /** The whitelisted steps, when the body carries an object of them. */
  function WithIncomingSteps(r: UserRecord, b: ProfileBody): UserRecord
  {
    if b.incomingSteps.Some? then r.(onboardingSteps := ApplySteps(r.onboardingSteps, b.incomingSteps.value))
    else r
  }

  /** The stage and the completed flag as given, and the timestamp. */
  function WithProgress(r: UserRecord, b: ProfileBody, now: int): UserRecord
  {
    r.(onboardingStage := Overwrite(r.onboardingStage, b.onboardingStage),
       onboardingCompleted := Overwrite(r.onboardingCompleted, b.onboardingCompleted),
       updatedAt := now)
  }

  /** The record after a profile update at time now, in the handler's order. */
  function UpdatedProfile(r: UserRecord, b: ProfileBody, now: int): UserRecord
  {
    WithProgress(WithIncomingSteps(WithScalars(r, b), b), b, now)
  }

  /**
   * A profile update never touches the phone, its verification, the wallets
   * or the Polkadot keys, always stamps `updatedAt`, and leaves every scalar
   * the body leaves undefined as it was.
   */
  lemma ProfileUpdateKeepsIdentity(r: UserRecord, b: ProfileBody, now: int)
    ensures var u := UpdatedProfile(r, b, now);
            Identity(u) == Identity(r) && u.updatedAt == now
            && forall f :: FieldValue(u, f) == Overwrite(FieldValue(r, f), FieldOf(b, f))
    ensures b == ProfileBody(Undefined, Undefined, Undefined, Undefined, Undefined, Undefined, None,
                             Undefined, Undefined)
            ==> UpdatedProfile(r, b, now) == r.(updatedAt := now)
  {
    ScalarsOverwrite(r, b);
    var u := UpdatedProfile(r, b, now);
    forall f
      ensures FieldValue(u, f) == Overwrite(FieldValue(r, f), FieldOf(b, f))
    {
      match f
      case Name =>
      case PhotoUrl =>
      case NationalId =>
      case BodaRegNo =>
      case MobileMoneyNumber =>
      case CoverageLevel =>
    }
  }

  /** The six scalar overwrites, each by its own body field, and nothing else. */
  lemma ScalarsOverwrite(r: UserRecord, b: ProfileBody)
    ensures WithScalars(r, b)
            == r.(name := Overwrite(r.name, b.name), photoUrl := Overwrite(r.photoUrl, b.photoUrl),
                  nationalId := Overwrite(r.nationalId, b.nationalId),
                  bodaRegNo := Overwrite(r.bodaRegNo, b.bodaRegNo),
                  mobileMoneyNumber := Overwrite(r.mobileMoneyNumber, b.mobileMoneyNumber),
                  coverageLevel := Overwrite(r.coverageLevel, b.coverageLevel))
  {
    var r1 := OverwriteIf(r, Name, b.name);
    assert r1 == r.(name := Overwrite(r.name, b.name));
    var r2 := OverwriteIf(r1, PhotoUrl, b.photoUrl);
    assert r2 == r1.(photoUrl := Overwrite(r.photoUrl, b.photoUrl));
    var r3 := OverwriteIf(r2, NationalId, b.nationalId);
    assert r3 == r2.(nationalId := Overwrite(r.nationalId, b.nationalId));
    var r4 := OverwriteIf(r3, BodaRegNo, b.bodaRegNo);
    assert r4 == r3.(bodaRegNo := Overwrite(r.bodaRegNo, b.bodaRegNo));
    var r5 := OverwriteIf(r4, MobileMoneyNumber, b.mobileMoneyNumber);
    assert r5 == r4.(mobileMoneyNumber := Overwrite(r.mobileMoneyNumber, b.mobileMoneyNumber));
  }

  /**
   * The stage and the completed flag are copied from the body as given: they
   * do not depend on the steps sent with them, and are not recomputed from
   * the steps.
   */
  lemma StageIsNotRecomputed(r: UserRecord, b: ProfileBody, now: int, other: Option<seq<(string, JsValue)>>)
    ensures var u := UpdatedProfile(r, b, now);
            var v := UpdatedProfile(r, b.(incomingSteps := other), now);
            u.onboardingStage == v.onboardingStage && u.onboardingCompleted == v.onboardingCompleted
    ensures b.onboardingStage != Undefined ==> UpdatedProfile(r, b, now).onboardingStage == b.onboardingStage
  {
  }

  /** `getUserProfile` and `deleteUser`: 400 without a phone, 404 when no user matches, before anything else. */
  function LookupGuard(phone: string, found: bool): (r: Option<Response>)
    ensures r.None? <==> phone != "" && found
    ensures phone == "" ==> r == Some(Response(400, "Phone parameter is required."))
    ensures phone != "" && !found ==> r == Some(Response(404, "User not found."))
  {
    if phone == "" then Some(Response(400, "Phone parameter is required."))
    else if !found then Some(Response(404, "User not found."))
    else None
  }

  /** `deleteUser`'s response, given whether `findOneAndDelete` removed a user. */
  function DeleteUserResponse(phone: string, deleted: bool): (r: Response)
    ensures r.status == 200 <==> phone != "" && deleted
    ensures r.status == 200 ==> r.message == "User with phone " + phone + " deleted."
  {
    match LookupGuard(phone, deleted)
    case Some(err) => err
    case None => Response(200, "User with phone " + phone + " deleted.")
  }

  /**
   * `updateUserProfile`: the guards, then the scalar overwrites, the
   * whitelisted steps, the verbatim stage and flag, and the timestamp.
   * `user` is what `User.findOne({ phone })` returned (null when none).
   */
  method UpdateUserProfile(phone: string, user: User?, b: ProfileBody, now: int) returns (resp: Response)
    modifies user
    ensures LookupGuard(phone, user != null).Some? ==> resp == LookupGuard(phone, user != null).value
    ensures LookupGuard(phone, user != null).None? ==> resp == Response(200, "User profile updated.")
    ensures user != null && phone == "" ==> user.Record() == old(user.Record())
    ensures user != null && phone != "" ==> user.Record() == UpdatedProfile(old(user.Record()), b, now)
  {
    var guard := LookupGuard(phone, user != null);
    if guard.Some? {
      return guard.value;
    }
    user.OverwriteScalars(b);
    if b.incomingSteps.Some? {
      user.ApplyIncomingSteps(b.incomingSteps.value);
    }
    user.OverwriteProgress(b, now);
    resp := Response(200, "User profile updated.");
  }

  // ---- onboard (compiled controller) ----

  datatype OnboardBody = OnboardBody(
    phone: JsValue,
    name: JsValue,
    photoUrl: JsValue,
    nationalId: JsValue,
    bodaRegNo: JsValue,
    mobileMoneyNumber: JsValue,
    coverageLevel: JsValue)

  /** The profile fields `onboard` accepts besides the phone. */
  datatype Field = Name | PhotoUrl | NationalId | BodaRegNo | MobileMoneyNumber | CoverageLevel

  /** The step a provided field marks done; `coverageLevel` marks none. */
  function StepFor(f: Field): (step: Option<string>)
    ensures step.Some? ==> step.value in StepKeys && step.value != "phoneVerified"
                           && step.value != "communityEndorsements"
  {
    match f
    case Name => Some("nameAdded")
    case PhotoUrl => Some("photoAdded")
    case NationalId => Some("nationalIdAdded")
    case BodaRegNo => Some("bodaRegNoAdded")
    case MobileMoneyNumber => Some("mobileMoneyLinked")
    case CoverageLevel => None
  }

  /** The value of one of the profile fields. */
  function FieldValue(r: UserRecord, f: Field): JsValue
  {
    match f
    case Name => r.name
    case PhotoUrl => r.photoUrl
    case NationalId => r.nationalId
    case BodaRegNo => r.bodaRegNo
    case MobileMoneyNumber => r.mobileMoneyNumber
    case CoverageLevel => r.coverageLevel
  }

  /** The record with one profile field replaced. */
  function WithField(r: UserRecord, f: Field, v: JsValue): (u: UserRecord)
    ensures FieldValue(u, f) == v
    ensures forall g :: g != f ==> FieldValue(u, g) == FieldValue(r, g)
    ensures u.onboardingSteps == r.onboardingSteps && Identity(u) == Identity(r)
    ensures u.onboardingStage == r.onboardingStage && u.onboardingCompleted == r.onboardingCompleted
    ensures u.updatedAt == r.updatedAt
  {
    match f
    case Name => r.(name := v)
    case PhotoUrl => r.(photoUrl := v)
    case NationalId => r.(nationalId := v)
    case BodaRegNo => r.(bodaRegNo := v)
    case MobileMoneyNumber => r.(mobileMoneyNumber := v)
    case CoverageLevel => r.(coverageLevel := v)
  }

  /** The field stored and its step done. */
  function Provided(r: UserRecord, f: Field, v: JsValue): UserRecord
  {
    var r1 := WithField(r, f, v);
    if StepFor(f).Some? then r1.(onboardingSteps := r1.onboardingSteps[StepFor(f).value := true]) else r1
  }

  function ProvideIf(r: UserRecord, f: Field, v: JsValue): UserRecord
  {
    if Truthy(v) then Provided(r, f, v) else r
  }

  /** `user.phone = phone` (the value the user was found by) and the phone step done. */
  function PhoneProvided(r: UserRecord, v: JsValue): UserRecord
  {
    r.(phone := if v.Str? then v.s else r.phone,
       onboardingSteps := r.onboardingSteps["phoneVerified" := true])
  }

  /** The stage recomputed from the steps, capped at 7, and the completed flag set when a field was given. */
  function Concluded(r: UserRecord, anyFieldProvided: bool): UserRecord
  {
    r.(onboardingStage := Num(Stage(CompletedSteps(r.onboardingSteps))),
       onboardingCompleted := if anyFieldProvided then Bool(true) else r.onboardingCompleted)
  }

  predicate AnyFieldProvided(b: OnboardBody)
  {
    Truthy(b.phone) || Truthy(b.name) || Truthy(b.photoUrl) || Truthy(b.nationalId)
    || Truthy(b.bodaRegNo) || Truthy(b.mobileMoneyNumber) || Truthy(b.coverageLevel)
  }

  /** The record after `onboard`, block by block in the handler's order. */
  function Onboarded(r: UserRecord, b: OnboardBody): UserRecord
  {
    var r1 := if Truthy(b.phone) then PhoneProvided(r, b.phone) else r;
    var r2 := ProvideIf(r1, Name, b.name);
    var r3 := ProvideIf(r2, PhotoUrl, b.photoUrl);
    var r4 := ProvideIf(r3, NationalId, b.nationalId);
    var r5 := ProvideIf(r4, BodaRegNo, b.bodaRegNo);
    var r6 := ProvideIf(r5, MobileMoneyNumber, b.mobileMoneyNumber);
    var r7 := ProvideIf(r6, CoverageLevel, b.coverageLevel);
    Concluded(r7, AnyFieldProvided(b))
  }

  lemma OnboardedBlocks(r0: UserRecord, b: OnboardBody, r1: UserRecord, r2: UserRecord, r3: UserRecord,
                        r4: UserRecord, r5: UserRecord, r6: UserRecord, r7: UserRecord)
    requires r1 == if Truthy(b.phone) then PhoneProvided(r0, b.phone) else r0
    requires r2 == ProvideIf(r1, Name, b.name) && r3 == ProvideIf(r2, PhotoUrl, b.photoUrl)
    requires r4 == ProvideIf(r3, NationalId, b.nationalId) && r5 == ProvideIf(r4, BodaRegNo, b.bodaRegNo)
    requires r6 == ProvideIf(r5, MobileMoneyNumber, b.mobileMoneyNumber)
    requires r7 == ProvideIf(r6, CoverageLevel, b.coverageLevel)
    ensures Onboarded(r0, b) == Concluded(r7, AnyFieldProvided(b))
  {
  }

  /** The steps with every given key set to true and the others as they were. */
  function Mark(steps: map<string, bool>, keys: set<string>): map<string, bool>
  {
    map k | k in steps.Keys + keys :: if k in keys then true else steps[k]
  }

  lemma MarkTwice(steps: map<string, bool>, a: set<string>, b: set<string>)
    ensures Mark(Mark(steps, a), b) == Mark(steps, a + b)
  {
  }

  /** The step a block marks: its field's step when the value is truthy. */
  function FieldMark(f: Field, v: JsValue): (m: set<string>)
    ensures "communityEndorsements" !in m
  {
    if Truthy(v) && StepFor(f).Some? then {StepFor(f).value} else {}
  }

  /** The steps one `onboard` request marks done. */
  function MarkedBy(b: OnboardBody): set<string>
  {
    (if Truthy(b.phone) then {"phoneVerified"} else {})
    + FieldMark(Name, b.name) + FieldMark(PhotoUrl, b.photoUrl) + FieldMark(NationalId, b.nationalId)
    + FieldMark(BodaRegNo, b.bodaRegNo) + FieldMark(MobileMoneyNumber, b.mobileMoneyNumber)
    + FieldMark(CoverageLevel, b.coverageLevel)
  }

  lemma ProvideIfMarks(r: UserRecord, f: Field, v: JsValue)
    ensures ProvideIf(r, f, v).onboardingSteps == Mark(r.onboardingSteps, FieldMark(f, v))
  {
    if Truthy(v) && StepFor(f).Some? {
      assert Provided(r, f, v).onboardingSteps == r.onboardingSteps[StepFor(f).value := true];
    } else {
      assert ProvideIf(r, f, v).onboardingSteps == r.onboardingSteps;
    }
  }

  /** The steps after `onboard` are the steps before with exactly the provided fields' steps set. */
  lemma OnboardedSteps(r: UserRecord, b: OnboardBody)
    ensures Onboarded(r, b).onboardingSteps == Mark(r.onboardingSteps, MarkedBy(b))
  {
    var r1 := if Truthy(b.phone) then PhoneProvided(r, b.phone) else r;
    var p := if Truthy(b.phone) then {"phoneVerified"} else {};
    assert r1.onboardingSteps == Mark(r.onboardingSteps, p);
    var r2 := ProvideIf(r1, Name, b.name);
    ProvideIfMarks(r1, Name, b.name);
    MarkTwice(r.onboardingSteps, p, FieldMark(Name, b.name));
    var m2 := p + FieldMark(Name, b.name);
    var r3 := ProvideIf(r2, PhotoUrl, b.photoUrl);
    ProvideIfMarks(r2, PhotoUrl, b.photoUrl);
    MarkTwice(r.onboardingSteps, m2, FieldMark(PhotoUrl, b.photoUrl));
    var m3 := m2 + FieldMark(PhotoUrl, b.photoUrl);
    var r4 := ProvideIf(r3, NationalId, b.nationalId);
    ProvideIfMarks(r3, NationalId, b.nationalId);
    MarkTwice(r.onboardingSteps, m3, FieldMark(NationalId, b.nationalId));
    var m4 := m3 + FieldMark(NationalId, b.nationalId);
    var r5 := ProvideIf(r4, BodaRegNo, b.bodaRegNo);
    ProvideIfMarks(r4, BodaRegNo, b.bodaRegNo);
    MarkTwice(r.onboardingSteps, m4, FieldMark(BodaRegNo, b.bodaRegNo));
    var m5 := m4 + FieldMark(BodaRegNo, b.bodaRegNo);
    var r6 := ProvideIf(r5, MobileMoneyNumber, b.mobileMoneyNumber);
    ProvideIfMarks(r5, MobileMoneyNumber, b.mobileMoneyNumber);
    MarkTwice(r.onboardingSteps, m5, FieldMark(MobileMoneyNumber, b.mobileMoneyNumber));
    var m6 := m5 + FieldMark(MobileMoneyNumber, b.mobileMoneyNumber);
    var r7 := ProvideIf(r6, CoverageLevel, b.coverageLevel);
    ProvideIfMarks(r6, CoverageLevel, b.coverageLevel);
    MarkTwice(r.onboardingSteps, m6, FieldMark(CoverageLevel, b.coverageLevel));
    assert Onboarded(r, b) == Concluded(r7, AnyFieldProvided(b));
  }

  /** `onboard` never clears a step: a step done before is still done. */
  lemma OnboardNeverClearsSteps(r: UserRecord, b: OnboardBody, key: string)
    requires StepDone(r.onboardingSteps, key)
    ensures StepDone(Onboarded(r, b).onboardingSteps, key)
  {
    OnboardedSteps(r, b);
  }

  /**
   * With the phone the handler requires, `onboard` completes onboarding and
   * sets a stage in [2, 7], one more than the steps done, capped at the number
   * of steps.
   */
  lemma OnboardStageAndCompletion(r: UserRecord, b: OnboardBody)
    requires Truthy(b.phone)
    ensures var u := Onboarded(r, b);
            u.onboardingCompleted == Bool(true)
            && StepDone(u.onboardingSteps, "phoneVerified")
            && u.onboardingStage.Num? && 2 <= u.onboardingStage.n <= |StepKeys|
            && u.onboardingStage.n == Stage(CompletedSteps(u.onboardingSteps))
            && CompletedSteps(r.onboardingSteps) <= CompletedSteps(u.onboardingSteps)
  {
    OnboardedSteps(r, b);
    var steps := Onboarded(r, b).onboardingSteps;
    assert "phoneVerified" in MarkedBy(b);
    assert StepDone(steps, "phoneVerified");
    CountDoneIncludes(StepKeys, steps, "phoneVerified");
    forall k | StepDone(r.onboardingSteps, k) ensures StepDone(steps, k) {
    }
    CountDoneMonotone(StepKeys, r.onboardingSteps, steps);
  }

  /** `coverageLevel` is stored but marks no step; `communityEndorsements` is never touched by `onboard`. */
  lemma CoverageLevelMarksNoStep(r: UserRecord, b: OnboardBody, level: JsValue)
    ensures Onboarded(r, b.(coverageLevel := level)).onboardingSteps == Onboarded(r, b).onboardingSteps
    ensures var s := Onboarded(r, b).onboardingSteps;
            ("communityEndorsements" in s <==> "communityEndorsements" in r.onboardingSteps)
            && ("communityEndorsements" in s ==> s["communityEndorsements"] == r.onboardingSteps["communityEndorsements"])
  {
    OnboardedSteps(r, b);
    OnboardedSteps(r, b.(coverageLevel := level));
    assert MarkedBy(b.(coverageLevel := level)) == MarkedBy(b);
    assert "communityEndorsements" !in MarkedBy(b);
  }

  /** `onboard`'s guards: 400 without a phone, 404 when no user has it. */
  function OnboardGuard(b: OnboardBody, found: bool): (r: Option<Response>)
    ensures r.None? <==> Truthy(b.phone) && found
  {
    if !Truthy(b.phone) then Some(Response(400, "Phone is required."))
    else if !found then Some(Response(404, "User not found."))
    else None
  }

  /** `onboard`, with `user` the result of `User.findOne({ phone })`. */
  method Onboard(user: User?, b: OnboardBody) returns (resp: Response)
    modifies user
    ensures OnboardGuard(b, user != null).Some? ==> resp == OnboardGuard(b, user != null).value
    ensures OnboardGuard(b, user != null).None? ==> resp == Response(200, "User onboarding fields updated.")
    ensures user != null && !Truthy(b.phone) ==> user.Record() == old(user.Record())
    ensures user != null && Truthy(b.phone) ==> user.Record() == Onboarded(old(user.Record()), b)
  {
    var guard := OnboardGuard(b, user != null);
    if guard.Some? {
      return guard.value;
    }
    ghost var r0 := user.Record();
    var anyFieldProvided := false;
    if Truthy(b.phone) {
      user.ProvidePhone(b.phone);
      anyFieldProvided := true;
    }
    ghost var r1 := user.Record();
    assert r1 == if Truthy(b.phone) then PhoneProvided(r0, b.phone) else r0;
    if Truthy(b.name) {
      user.Provide(Name, b.name);
      anyFieldProvided := true;
    }
    ghost var r2 := user.Record();
    assert r2 == ProvideIf(r1, Name, b.name);
    if Truthy(b.photoUrl) {
      user.Provide(PhotoUrl, b.photoUrl);
      anyFieldProvided := true;
    }
    ghost var r3 := user.Record();
    assert r3 == ProvideIf(r2, PhotoUrl, b.photoUrl);
    if Truthy(b.nationalId) {
      user.Provide(NationalId, b.nationalId);
      anyFieldProvided := true;
    }
    ghost var r4 := user.Record();
    assert r4 == ProvideIf(r3, NationalId, b.nationalId);
    if Truthy(b.bodaRegNo) {
      user.Provide(BodaRegNo, b.bodaRegNo);
      anyFieldProvided := true;
    }
    ghost var r5 := user.Record();
    assert r5 == ProvideIf(r4, BodaRegNo, b.bodaRegNo);
    if Truthy(b.mobileMoneyNumber) {
      user.Provide(MobileMoneyNumber, b.mobileMoneyNumber);
      anyFieldProvided := true;
    }
    ghost var r6 := user.Record();
    assert r6 == ProvideIf(r5, MobileMoneyNumber, b.mobileMoneyNumber);
    if Truthy(b.coverageLevel) {
      user.Provide(CoverageLevel, b.coverageLevel);
      anyFieldProvided := true;
    }
    ghost var r7 := user.Record();
    assert r7 == ProvideIf(r6, CoverageLevel, b.coverageLevel);
    assert anyFieldProvided == AnyFieldProvided(b);
    OnboardedBlocks(r0, b, r1, r2, r3, r4, r5, r6, r7);
    user.ConcludeOnboarding(anyFieldProvided);
    resp := Response(200, "User onboarding fields updated.");
  }

  // ---- registerUser (TypeScript) ----

  /** What `createPrivyWallet` resolved to: nothing, or an address and a `walletId` of any JSON type. */
  datatype PrivyWallet = PrivyWallet(address: string, walletId: JsValue)

  /** What `createPolkadotWallet` resolved to. */
  datatype PolkadotWallet = PolkadotWallet(address: string, mnemonic: string)

  /**
   * The response of `registerUser`, given whether `User.findOne({ phone })`
   * found a user and what the two wallet calls did (a thrown error is a 500
   * "Server error").
   */
  function RegisterResponse(phone: JsValue, existing: bool, privy: Result<Option<PrivyWallet>>,
                            polkadot: Result<PolkadotWallet>): (r: Response)
    ensures r.status == 201 <==> (PhoneNumbers.RegisterFormat(phone).Formatted? && !existing
                                  && privy.Ok? && privy.value.Some? && Truthy(privy.value.value.walletId)
                                  && privy.value.value.walletId.Str? && polkadot.Ok?)
    ensures PhoneNumbers.RegisterFormat(phone).Rejected?
            ==> r == Response(PhoneNumbers.RegisterFormat(phone).status, PhoneNumbers.RegisterFormat(phone).message)
    ensures PhoneNumbers.RegisterFormat(phone).Formatted? && existing ==> r == Response(409, "User already registered")
    ensures PhoneNumbers.RegisterFormat(phone).Formatted? && !existing && (privy.Err? || polkadot.Err?)
            ==> r == Response(500, "Server error")
    ensures PhoneNumbers.RegisterFormat(phone).Formatted? && !existing && privy.Ok? && polkadot.Ok?
            && !(privy.value.Some? && privy.value.value.walletId.Str? && Truthy(privy.value.value.walletId))
            ==> r == Response(500, "Failed to create Privy wallet. Try again.")
  {
    match PhoneNumbers.RegisterFormat(phone)
    case Rejected(status, message) => Response(status, message)
    case Formatted(_, _) =>
      if existing then Response(409, "User already registered")
      else if privy.Err? || polkadot.Err? then Response(500, "Server error")
      else if privy.value.None? || !privy.value.value.walletId.Str? || !Truthy(privy.value.value.walletId) then
        Response(500, "Failed to create Privy wallet. Try again.")
      else Response(201, "User with phone " + phone.s + " registered successfully")
  }

  /**
   * `registerUser`: on 201 a new user is created from the raw `phone` as
   * given, not the formatted number.
   */
  method RegisterUser(phone: JsValue, existing: bool, privy: Result<Option<PrivyWallet>>,
                      polkadot: Result<PolkadotWallet>, now: int) returns (resp: Response, user: User?)
    ensures resp == RegisterResponse(phone, existing, privy, polkadot)
    ensures resp.status == 201 <==> user != null
    ensures user != null ==> (fresh(user)
              && user.Record() == NewRecord(phone.s, privy.value.value.address, privy.value.value.walletId.s, None,
                                            polkadot.value.address, polkadot.value.mnemonic, now))
  {
    resp := RegisterResponse(phone, existing, privy, polkadot);
    if resp.status != 201 {
      return resp, null;
    }
    var w := privy.value.value;
    user := new User(phone.s, w.address, w.walletId.s, None, polkadot.value.address, polkadot.value.mnemonic, now);
  }

  /**
   * A local mobile number "07" and eight digits, not yet registered, with both
   * wallets created, is registered under the number as given; registered, it is a 409.
   */
  lemma RegisterAcceptsLocalMobile(p: string, existing: bool, w: PrivyWallet, polkadot: PolkadotWallet)
    requires |p| == 10 && StartsWith(p, "07") && AllDigits(p[1..])
    requires w.walletId.Str? && w.walletId.s != ""
    ensures !existing ==> RegisterResponse(Str(p), existing, Ok(Some(w)), Ok(polkadot))
                          == Response(201, "User with phone " + p + " registered successfully")
    ensures existing ==> RegisterResponse(Str(p), existing, Ok(Some(w)), Ok(polkadot))
                         == Response(409, "User already registered")
  {
    assert p[..1] == p[..2][..1];
    assert PhoneNumbers.MatchesRegisterPattern(p);
    PhoneNumbers.RegisterFormatCases(p);
  }

  /**
   * The stored phone is the raw input: "0712345678" is registered as is, so a
   * user who registered with it is not found under "+254712345678".
   */
  lemma RegisterStoresRawPhone()
    ensures PhoneNumbers.RegisterFormat(Str("0712345678")) == PhoneNumbers.Formatted("0712345678", "+254712345678")
    ensures NewRecord("0712345678", "", "", None, "", "", 0).phone != "+254712345678"
  {
    assert PhoneNumbers.MatchesRegisterPattern("0712345678") by {
      assert "0712345678"[..1] == "0";
    }
    assert "0712345678"[..2] == "07";
    assert "0712345678"[..1] != "7";
  }
}
