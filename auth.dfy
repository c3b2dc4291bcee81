/**
 * Phone-number authentication of the management server: the mock one-time-code
 * service, the phone-number and password rules, and the order of checks in the
 * registration and login handlers.
 *
 * The database, bcrypt hashing and token signing are not modelled; the clock is
 * a parameter (Unix seconds).
 */
module Auth {
  import opened Wrappers
  import opened GoStrings

  // ---------------------------------------------------------------------------
  // One-time codes

  /** fmt.Sprintf("%06d", unixSeconds % 1000000), with Go's truncated remainder. */
  function GenerateOtp(unixSeconds: int): (code: string)
    ensures GoRem(unixSeconds, 1000000) < 0 ==> |code| >= 1 && code[0] == '-'
  {
    FormatZeroPadded(GoRem(unixSeconds, 1000000), 6)
  }

  /** From a non-negative clock, the code is six decimal digits spelling t mod 10^6. */
  lemma {:induction false} GenerateOtpSixDigits(unixSeconds: int)
    requires unixSeconds >= 0
    ensures |GenerateOtp(unixSeconds)| == 6 && AllDigits(GenerateOtp(unixSeconds))
    ensures DecimalValue(GenerateOtp(unixSeconds)) == unixSeconds % 1000000
  {
    var n := unixSeconds % 1000000;
    assert Pow10(6) == 1000000;
    DigitsLength(n, 6, Pow10(6));
    var digits := Digits(n);
    assert GenerateOtp(unixSeconds) == Zeros(6 - |digits|) + digits;
    DecimalValueLeadingZeros(6 - |digits|, digits);
    DecimalValueOfDigits(n);
  }

  /** Clocks a multiple of 10^6 seconds apart produce the same code. */
  lemma OtpRepeatsEveryMillionSeconds(t: int, k: nat)
    requires t >= 0
    ensures GenerateOtp(t + 1000000 * k) == GenerateOtp(t)
  {
    assert (t + 1000000 * k) % 1000000 == t % 1000000;
  }

  datatype OtpError = NoOtpFound

  /** SendOTP on a store: the fresh code replaces any earlier one for that phone. */
  function SendStep(store: map<string, string>, phone: string, unixSeconds: int)
    : (r: (string, map<string, string>))
    ensures r.0 == GenerateOtp(unixSeconds)
    ensures r.1.Keys == store.Keys + {phone}
    ensures r.1[phone] == r.0
    ensures forall p | p in store && p != phone :: r.1[p] == store[p]
  {
    var otp := GenerateOtp(unixSeconds);
    (otp, store[phone := otp])
  }

  /**
   * VerifyOTP on a store: an error when no code is stored, false with the store
   * untouched on a mismatch, true with the entry removed on a match.
   */
  function VerifyStep(store: map<string, string>, phone: string, otp: string)
    : (r: (Result<bool, OtpError>, map<string, string>))
    ensures phone !in store <==> r.0 == Err(NoOtpFound)
    ensures r.0 == Ok(true) <==> phone in store && store[phone] == otp
    ensures r.0 != Ok(true) ==> r.1 == store
    ensures r.0 == Ok(true) ==> r.1.Keys == store.Keys - {phone}
    ensures forall p | p in r.1 :: p in store && r.1[p] == store[p]
  {
    if phone !in store then (Err(NoOtpFound), store)
    else if store[phone] != otp then (Ok(false), store)
    else (Ok(true), store - {phone})
  }

  /** A code is single-use: once verified, verifying it again finds nothing. */
  lemma OtpSingleUse(store: map<string, string>, phone: string, otp: string)
    requires VerifyStep(store, phone, otp).0 == Ok(true)
    ensures VerifyStep(VerifyStep(store, phone, otp).1, phone, otp).0 == Err(NoOtpFound)
  {
  }

  /** The code just sent verifies, and leaves the other phones' codes as they were. */
  lemma SentCodeVerifies(store: map<string, string>, phone: string, unixSeconds: int)
    ensures var (otp, sent) := SendStep(store, phone, unixSeconds);
      VerifyStep(sent, phone, otp) == (Ok(true), store - {phone})
  {
    var (otp, sent) := SendStep(store, phone, unixSeconds);
    assert sent - {phone} == store - {phone};
  }

  /** The mock code service: phone number to the last code sent to it. */
  class MockOtpService {
    var otpStore: map<string, string>

    constructor ()
      ensures otpStore == map[]
    {
      otpStore := map[];
    }

    /** SendOTP: stores and returns the code for the current clock. */
    method SendOtp(phone: string, unixSeconds: int) returns (otp: string)
      modifies this
      ensures (otp, otpStore) == SendStep(old(otpStore), phone, unixSeconds)
    {
      otp := GenerateOtp(unixSeconds);
      otpStore := otpStore[phone := otp];
    }

    /** VerifyOTP: deletes the entry only when the code matches. */
    method VerifyOtp(phone: string, otp: string) returns (r: Result<bool, OtpError>)
      modifies this
      ensures (r, otpStore) == VerifyStep(old(otpStore), phone, otp)
    {
      if phone !in otpStore {
        return Err(NoOtpFound);
      }
      var storedOtp := otpStore[phone];
      if storedOtp != otp {
        return Ok(false);
      }
      otpStore := otpStore - {phone};
      r := Ok(true);
    }
  }

  /** Sending a code and verifying it twice: true, then the missing-code error. */
  method SendVerifyTwice(svc: MockOtpService, phone: string, unixSeconds: int)
    returns (first: Result<bool, OtpError>, second: Result<bool, OtpError>)
    modifies svc
    ensures first == Ok(true) && second == Err(NoOtpFound)
    ensures svc.otpStore == old(svc.otpStore) - {phone}
  {
    var otp := svc.SendOtp(phone, unixSeconds);
    SentCodeVerifies(old(svc.otpStore), phone, unixSeconds);
    first := svc.VerifyOtp(phone, otp);
    second := svc.VerifyOtp(phone, otp);
  }

  // ---------------------------------------------------------------------------
  // Phone numbers and passwords

  datatype PhoneError = PhoneLength | PhoneCharacters

  /** The phone number with every space and dash removed. */
  function CleanPhone(phone: string): (r: string)
    ensures ' ' !in r && '-' !in r
    ensures ' ' !in phone && '-' !in phone ==> r == phone
  {
    RemoveAllAbsent(phone, ' ');
    RemoveAllAbsent(RemoveAll(phone, ' '), '-');
    RemoveAll(RemoveAll(phone, ' '), '-')
  }

  /** The whole string matches ^\+?[0-9]+$. */
  predicate MatchesPhonePattern(s: string) {
    (|s| >= 1 && AllDigits(s)) || (|s| >= 2 && s[0] == '+' && AllDigits(s[1..]))
  }

  /**
   * validatePhoneNumber: after removing spaces and dashes, 10 to 15 bytes, then an
   * optional '+' and digits only.
   */
  function ValidatePhoneNumber(phone: string): (r: Outcome<PhoneError>)
    ensures r == Fail(PhoneLength) <==> Utf8Len(CleanPhone(phone)) < 10 || Utf8Len(CleanPhone(phone)) > 15
    ensures r == Fail(PhoneCharacters) <==>
      10 <= Utf8Len(CleanPhone(phone)) <= 15 && !MatchesPhonePattern(CleanPhone(phone))
  {
    var cleaned := CleanPhone(phone);
    if Utf8Len(cleaned) < 10 || Utf8Len(cleaned) > 15 then Fail(PhoneLength)
    else if !MatchesPhonePattern(cleaned) then Fail(PhoneCharacters)
    else Pass
  }

  /** An accepted number is 10 to 15 characters after cleaning, the '+' included. */
  lemma {:induction false} AcceptedPhoneShape(phone: string)
    requires ValidatePhoneNumber(phone) == Pass
    ensures 10 <= |CleanPhone(phone)| <= 15
    ensures MatchesPhonePattern(CleanPhone(phone))
  {
    var s := CleanPhone(phone);
    assert IsAscii(s) by {
      forall k | 0 <= k < |s| ensures s[k] as int < 0x80 {
        if k > 0 || s[0] != '+' {
          if s[0] == '+' {
            assert s[k] == s[1..][k - 1];
          }
        }
      }
    }
    Utf8LenAscii(s);
  }

  /** Removing one space or dash from the raw number leaves the cleaned number as it was. */
  lemma CleanPhoneDropsSeparator(a: string, b: string, sep: char)
    requires sep == ' ' || sep == '-'
    ensures CleanPhone(a + [sep] + b) == CleanPhone(a + b)
  {
    var a1, b1 := RemoveAll(a, ' '), RemoveAll(b, ' ');
    var mid := RemoveAll([sep], ' ');
    calc {
      RemoveAll(a + [sep] + b, ' ');
      { RemoveAllConcat(a + [sep], b, ' '); }
      RemoveAll(a + [sep], ' ') + b1;
      { RemoveAllConcat(a, [sep], ' '); }
      a1 + mid + b1;
    }
    RemoveAllConcat(a, b, ' ');
    assert RemoveAll(mid, '-') == [] by {
      assert mid == (if sep == ' ' then [] else [sep]);
    }
    calc {
      RemoveAll(a1 + mid + b1, '-');
      { RemoveAllConcat(a1 + mid, b1, '-'); }
      RemoveAll(a1 + mid, '-') + RemoveAll(b1, '-');
      { RemoveAllConcat(a1, mid, '-'); }
      RemoveAll(a1, '-') + RemoveAll(b1, '-');
      { RemoveAllConcat(a1, b1, '-'); }
      RemoveAll(a1 + b1, '-');
    }
  }

  /** Spaces and dashes anywhere in the number do not change the verdict. */
  lemma SeparatorsIgnored(a: string, b: string, sep: char)
    requires sep == ' ' || sep == '-'
    ensures ValidatePhoneNumber(a + [sep] + b) == ValidatePhoneNumber(a + b)
  {
    CleanPhoneDropsSeparator(a, b, sep);
  }

  datatype PasswordError = PasswordTooShort | PasswordTooLong | NoUppercase | NoLowercase | NoDigit

  predicate HasUpper(s: string) { exists k | 0 <= k < |s| :: IsUpper(s[k]) }
  predicate HasLower(s: string) { exists k | 0 <= k < |s| :: IsLower(s[k]) }
  predicate HasDigit(s: string) { exists k | 0 <= k < |s| :: IsDigit(s[k]) }

  /**
   * validatePassword: 8 to 128 bytes, then an ASCII upper-case letter, a lower-case
   * letter and a digit, checked in that order.
   */
  function ValidatePassword(password: string): (r: Outcome<PasswordError>)
    ensures r == Pass <==>
      8 <= Utf8Len(password) <= 128 && HasUpper(password) && HasLower(password) && HasDigit(password)
    ensures r == Fail(PasswordTooShort) <==> Utf8Len(password) < 8
    ensures r == Fail(PasswordTooLong) <==> Utf8Len(password) > 128
    ensures r == Fail(NoUppercase) <==> 8 <= Utf8Len(password) <= 128 && !HasUpper(password)
    ensures r == Fail(NoLowercase) <==>
      8 <= Utf8Len(password) <= 128 && HasUpper(password) && !HasLower(password)
    ensures r == Fail(NoDigit) <==>
      8 <= Utf8Len(password) <= 128 && HasUpper(password) && HasLower(password) && !HasDigit(password)
  {
    if Utf8Len(password) < 8 then Fail(PasswordTooShort)
    else if Utf8Len(password) > 128 then Fail(PasswordTooLong)
    else if !HasUpper(password) then Fail(NoUppercase)
    else if !HasLower(password) then Fail(NoLowercase)
    else if !HasDigit(password) then Fail(NoDigit)
    else Pass
  }

  /** The limits are in bytes: six characters pass the minimum when three of them are 'é'. */
  lemma PasswordLengthInBytes()
    ensures ValidatePassword("Aa1ééé") == Pass
  {
    var p := "Aa1ééé";
    assert Utf8Len(p) == 9 by {
      assert Utf8Width('é') == 2;
      assert Utf8Width('A') == 1 && Utf8Width('a') == 1 && Utf8Width('1') == 1;
    }
    assert IsUpper(p[0]) && IsLower(p[1]) && IsDigit(p[2]);
  }

  // ---------------------------------------------------------------------------
  // Registration and login

  datatype RegisterError =
    | InvalidPhone(phoneError: PhoneError)
    | InvalidPassword(passwordError: PasswordError)
    | OtpVerificationFailed(otpError: OtpError)
    | InvalidOtp

  /**
   * HandleRegister up to the user lookup: the phone number, then the password,
   * then the code; the code is consumed only when the first two checks pass.
   * Ok means the request goes on to the user lookup.
   */
  function RegisterStep(store: map<string, string>, phone: string, password: string, otp: string)
    : (r: (Outcome<RegisterError>, map<string, string>))
    ensures ValidatePhoneNumber(phone).Fail? ==>
      r == (Fail(InvalidPhone(ValidatePhoneNumber(phone).error)), store)
    ensures ValidatePhoneNumber(phone) == Pass && ValidatePassword(password).Fail? ==>
      r == (Fail(InvalidPassword(ValidatePassword(password).error)), store)
    ensures r.0 == Pass <==>
      ValidatePhoneNumber(phone) == Pass && ValidatePassword(password) == Pass
      && phone in store && store[phone] == otp
    ensures ValidatePhoneNumber(phone) == Pass && ValidatePassword(password) == Pass && phone !in store ==>
      r.0 == Fail(OtpVerificationFailed(NoOtpFound))
    ensures (ValidatePhoneNumber(phone) == Pass && ValidatePassword(password) == Pass && phone in store
             && store[phone] != otp) ==> r.0 == Fail(InvalidOtp)
    ensures r.0 == Pass ==> r.1 == store - {phone}
    ensures r.0 != Pass ==> r.1 == store
  {
    var p := ValidatePhoneNumber(phone);
    if p.Fail? then (Fail(InvalidPhone(p.error)), store)
    else
      var w := ValidatePassword(password);
      if w.Fail? then (Fail(InvalidPassword(w.error)), store)
      else
        var (verified, store') := VerifyStep(store, phone, otp);
        if verified.Err? then (Fail(OtpVerificationFailed(verified.error)), store')
        else if !verified.value then (Fail(InvalidOtp), store')
        else (Pass, store')
  }

  /** The registration checks against the service's store. */
  method RegisterChecks(svc: MockOtpService, phone: string, password: string, otp: string)
    returns (r: Outcome<RegisterError>)
    modifies svc
    ensures (r, svc.otpStore) == RegisterStep(old(svc.otpStore), phone, password, otp)
  {
    var p := ValidatePhoneNumber(phone);
    if p.Fail? {
      return Fail(InvalidPhone(p.error));
    }
    var w := ValidatePassword(password);
    if w.Fail? {
      return Fail(InvalidPassword(w.error));
    }
    var verified := svc.VerifyOtp(phone, otp);
    if verified.Err? {
      return Fail(OtpVerificationFailed(verified.error));
    }
    if !verified.value {
      return Fail(InvalidOtp);
    }
    r := Pass;
  }

  datatype LoginError = CredentialsRequired

  /** HandleLogin's first check: both the phone number and the password must be non-empty. */
  function LoginPrecheck(phone: string, password: string): (r: Outcome<LoginError>)
    ensures r == Pass <==> |phone| > 0 && |password| > 0
  {
    if phone == "" || password == "" then Fail(CredentialsRequired) else Pass
  }
}
