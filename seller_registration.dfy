/** The three-step seller registration form: KYC and phone, then a one-time
    password check, then store and payout details, which are merged into the
    current user. Each handler belongs to the form of one step, the only one
    on screen at that step, so each carries the step it is reachable from. */
module SellerRegistration {
  import opened JsValues
  import opened AuthSlice

  /** The fixed one-time password of the demo flow. */
  const DEMO_OTP: string := "123456"
  const MSG_WRONG_OTP: string := "Incorrect OTP. Try 123456 for demo."
  const MIN_PHONE_LENGTH: nat := 10
  const STANDARD_DELIVERY: string := "Standard Delivery (5-7 days)"
  const PAID_DELIVERY: string := "paid"

  /** A form's string fields as a plain object. */
  function AsObject(m: map<string, string>): (o: JsObject)
    ensures o.Keys == m.Keys
    ensures forall k :: k in m ==> o[k] == JStr(m[k])
  {
    map k | k in m :: JStr(m[k])
  }

  /** The keys `handleFinish` sets itself, after the form fields. */
  const FINISH_KEYS: set<string> := {"isSeller", "sellerId", "gstRate"}

  /** `{ ...kyc, ...details, isSeller: true, sellerId, gstRate: 0 }`. */
  function FinishPayload(kyc: map<string, string>, details: map<string, string>, sellerId: string): (p: JsObject)
    ensures p.Keys == kyc.Keys + details.Keys + FINISH_KEYS
    ensures p["isSeller"] == JBool(true) && p["sellerId"] == JStr(sellerId) && p["gstRate"] == JNum(0)
    ensures forall k :: k in details && k !in FINISH_KEYS ==> p[k] == JStr(details[k])
    ensures forall k :: k in kyc && k !in details && k !in FINISH_KEYS ==> p[k] == JStr(kyc[k])
  {
    AsObject(kyc) + AsObject(details)
      + map["isSeller" := JBool(true), "sellerId" := JStr(sellerId), "gstRate" := JNum(0)]
  }

  /** A phone number given only in the KYC step reaches the finish payload. */
  lemma FinishKeepsPhone(kyc: map<string, string>, details: map<string, string>, sellerId: string)
    requires "phone" in kyc && "phone" !in details
    ensures "phone" in FinishPayload(kyc, details, sellerId)
    ensures FinishPayload(kyc, details, sellerId)["phone"] == JStr(kyc["phone"])
  {
    assert "phone" !in FINISH_KEYS;
  }

  /** The form's state. */
  class Registration {
    var step: int
    var kyc: map<string, string>
    var otpSent: bool
    var enteredOtp: string
    var otpError: string
    var details: map<string, string>

    /** The step is 1, 2 or 3; steps 2 and 3 are reached only after a password
        was sent to a phone number of at least 10 characters, and step 3 only
        with the correct password entered. */
    ghost predicate Valid()
      reads this
    {
      && 1 <= step <= 3
      && "phone" in kyc
      && (step >= 2 ==> otpSent && |kyc["phone"]| >= MIN_PHONE_LENGTH)
      && (step == 3 ==> enteredOtp == DEMO_OTP)
    }

    /** The form as first shown: step 1 with every field empty. */
    constructor ()
      ensures Valid() && step == 1 && !otpSent && enteredOtp == "" && otpError == ""
      ensures kyc == map["aadhaar" := "", "pan" := "", "phone" := ""]
      ensures details == map["storeName" := "", "email" := "", "address" := "",
                             "shippingMethod" := STANDARD_DELIVERY, "deliveryOption" := PAID_DELIVERY,
                             "accountHolder" := "", "accountNumber" := "", "ifsc" := ""]
    {
      step := 1;
      kyc := map["aadhaar" := "", "pan" := "", "phone" := ""];
      otpSent := false;
      enteredOtp := "";
      otpError := "";
      details := map["storeName" := "", "email" := "", "address" := "",
                     "shippingMethod" := STANDARD_DELIVERY, "deliveryOption" := PAID_DELIVERY,
                     "accountHolder" := "", "accountNumber" := "", "ifsc" := ""];
    }

    /** `handleKycChange`: one KYC field of the step-1 form. */
    method KycChange(name: string, value: string)
      requires Valid() && step == 1
      modifies this`kyc
      ensures Valid()
      ensures kyc == old(kyc)[name := value]
    {
      kyc := kyc[name := value];
    }

    /** `handleSendOtp`: a missing or short phone number changes nothing. */
    method SendOtp()
      requires Valid() && step == 1
      modifies this`otpSent, this`step, this`otpError
      ensures Valid()
      ensures kyc["phone"] == "" || |kyc["phone"]| < MIN_PHONE_LENGTH ==>
                step == old(step) && otpSent == old(otpSent) && otpError == old(otpError)
      ensures !(kyc["phone"] == "" || |kyc["phone"]| < MIN_PHONE_LENGTH) ==>
                step == 2 && otpSent && otpError == ""
    {
      if kyc["phone"] == "" || |kyc["phone"]| < MIN_PHONE_LENGTH {
        return;
      }
      otpSent := true;
      step := 2;
      otpError := "";
    }

    /** Typing into the password field of the step-2 form. */
    method EnteredOtpChange(value: string)
      requires Valid() && step == 2
      modifies this`enteredOtp
      ensures Valid() && enteredOtp == value
    {
      enteredOtp := value;
    }

    /** `handleVerifyOtp`: the demo password moves on to step 3, anything else shows the error. */
    method VerifyOtp()
      requires Valid() && step == 2
      modifies this`step, this`otpError
      ensures Valid()
      ensures enteredOtp == DEMO_OTP ==> step == 3 && otpError == ""
      ensures enteredOtp != DEMO_OTP ==> step == 2 && otpError == MSG_WRONG_OTP
    {
      if enteredOtp == DEMO_OTP {
        otpError := "";
        step := 3;
      } else {
        otpError := MSG_WRONG_OTP;
      }
    }

    /** The Back button of the step-2 form. */
    method BackToKyc()
      requires Valid() && step == 2
      modifies this`step
      ensures Valid() && step == 1
    {
      step := 1;
    }

    /** The Back button of the step-3 form. */
    method BackToOtp()
      requires Valid() && step == 3
      modifies this`step
      ensures Valid() && step == 2
    {
      step := 2;
    }

    /** `handleDetailsChange`: one field of the step-3 form. */
    method DetailsChange(name: string, value: string)
      requires Valid() && step == 3
      modifies this`details
      ensures Valid()
      ensures details == old(details)[name := value]
    {
      details := details[name := value];
    }

    /** `handleFinish`: merges the KYC and detail fields, marked as a seller,
        into the current user; `sellerId` is the generated seller id. */
    method Finish(auth: AuthStore, sellerId: string)
      requires Valid() && step == 3 && auth.Valid()
      modifies auth`user
      ensures auth.Valid()
      ensures auth.user == Some(MergedUser(old(auth.user), FinishPayload(kyc, details, sellerId)))
      ensures auth.user.value["isSeller"] == JBool(true) && auth.user.value["gstRate"] == JNum(0)
    {
      var payload := AsObject(kyc) + AsObject(details)
        + map["isSeller" := JBool(true), "sellerId" := JStr(sellerId), "gstRate" := JNum(0)];
      auth.UpdateSellerDetails(payload);
    }
  }

  /** A wrong password keeps the form at step 2, whatever was typed. */
  method WrongOtpStays(form: Registration, typed: string)
    requires form.Valid() && form.step == 2 && typed != DEMO_OTP
    modifies form
    ensures form.Valid() && form.step == 2 && form.otpError == MSG_WRONG_OTP
  {
    form.EnteredOtpChange(typed);
    form.VerifyOtp();
  }

  /** The whole flow from a fresh form: a phone of 10 or more characters, the demo password,
      and Finish make the current user a seller. */
  method RegisterAsSeller(auth: AuthStore, phone: string, sellerId: string)
    returns (form: Registration)
    requires auth.Valid() && |phone| >= MIN_PHONE_LENGTH
    modifies auth
    ensures form.step == 3
    ensures auth.user.Some? && "isSeller" in auth.user.value && "phone" in auth.user.value
    ensures auth.user.value["isSeller"] == JBool(true) && auth.user.value["phone"] == JStr(phone)
  {
    form := new Registration();
    form.KycChange("phone", phone);
    assert "phone" !in form.details;
    form.SendOtp();
    form.EnteredOtpChange(DEMO_OTP);
    form.VerifyOtp();
    FinishKeepsPhone(form.kyc, form.details, sellerId);
    form.Finish(auth, sellerId);
  }
}
