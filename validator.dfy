/**
 * Input validators (pkg/validator/validator.go): card number with the Luhn
 * checksum, CVV, expiry date, e-mail address, phone number, amount range and
 * cryptocurrency wallet addresses. Every validator answers `Pass` or a plain
 * error (the source builds them with `fmt.Errorf`). The regular expressions
 * of the source are written out as predicates over the characters.
 */
module Validator {
  import opened AppErrors
  import opened Text

  // ---------------------------------------------------------------- card number

  /** One digit's contribution to the Luhn sum; every second digit from the right is doubled. */
  function LuhnDigit(d: nat, doubled: bool): (r: nat)
    requires d < 10
    ensures r < 10
  {
    if !doubled then d else if 2 * d > 9 then 2 * d - 9 else 2 * d
  }

  /** The Luhn sum of a digit string: position i doubles when its distance from the end is odd. */
  function LuhnSum(s: string): nat
    requires AllDigits(s)
  {
    if s == [] then 0 else LuhnDigit(DigitValue(s[0]), (|s| - 1) % 2 == 1) + LuhnSum(s[1..])
  }

  predicate PassesLuhn(s: string)
    requires AllDigits(s)
  {
    LuhnSum(s) % 10 == 0
  }

  /** The card number after removing spaces and then dashes. */
  function NormalizedCardNumber(cardNumber: string): string
  {
    RemoveAll(RemoveAll(cardNumber, ' '), '-')
  }

  /** What `ValidateCardNumber` answers, in the order the source checks. */
  function CardNumberOutcome(cardNumber: string): (o: Outcome)
    ensures o.Pass? <==>
      var n := NormalizedCardNumber(cardNumber);
      13 <= |n| <= 19 && AllDigits(n) && PassesLuhn(n)
  {
    var n := NormalizedCardNumber(cardNumber);
    if |n| < 13 || |n| > 19 then Fail(Plain("invalid card number length"))
    else if !AllDigits(n) then Fail(Plain("card number must contain only digits"))
    else if LuhnSum(n) % 10 != 0 then Fail(Plain("invalid card number (failed Luhn check)"))
    else Pass
  }

  /** The Luhn loop of `ValidateCardNumber`: digits from the right, every second one doubled with nine cast out. */
  method LuhnChecksum(n: string) returns (sum: nat)
    requires AllDigits(n)
    ensures sum == LuhnSum(n)
  {
    sum := 0;
    var isEven := false;
    var i := |n| - 1;
    while i >= 0
      invariant -1 <= i < |n|
      invariant sum == LuhnSum(n[i + 1..])
      invariant isEven == ((|n| - 1 - i) % 2 == 1)
    {
      var digit := DigitValue(n[i]);
      if isEven {
        digit := digit * 2;
        if digit > 9 {
          digit := digit - 9;
        }
      }
      assert digit == LuhnDigit(DigitValue(n[i]), isEven);
      assert n[i..][1..] == n[i + 1..];
      assert LuhnSum(n[i..]) == digit + LuhnSum(n[i + 1..]);
      sum := sum + digit;
      isEven := !isEven;
      i := i - 1;
    }
    assert n[0..] == n;
  }

  /** The source's right-to-left Luhn loop. */
  method ValidateCardNumber(cardNumber: string) returns (o: Outcome)
    ensures o == CardNumberOutcome(cardNumber)
  {
    var n := NormalizedCardNumber(cardNumber);
    if |n| < 13 || |n| > 19 {
      return Fail(Plain("invalid card number length"));
    }
    if !AllDigits(n) {
      return Fail(Plain("card number must contain only digits"));
    }
    var sum := LuhnChecksum(n);
    if sum % 10 != 0 {
      return Fail(Plain("invalid card number (failed Luhn check)"));
    }
    return Pass;
  }

  /** The Luhn sum splits at any position into the part before and the part from it on. */
  lemma {:induction false} LuhnSumAt(s: string, k: nat)
    requires AllDigits(s) && k < |s|
    ensures LuhnSum(s) == LuhnPrefix(s, k) + LuhnDigit(DigitValue(s[k]), (|s| - 1 - k) % 2 == 1) + LuhnSum(s[k + 1..])
    decreases k
  {
    if k > 0 {
      assert s[1..][k - 1..] == s[k..];
      assert s[1..][k..] == s[k + 1..];
      assert s[1..][k - 1] == s[k];
      LuhnSumAt(s[1..], k - 1);
      LuhnPrefixStep(s, k);
    }
  }

  /** The contributions of the first `k` digits of `s`, with their parity taken from `s`. */
  function LuhnPrefix(s: string, k: nat): nat
    requires AllDigits(s) && k <= |s|
  {
    if k == 0 then 0
    else LuhnDigit(DigitValue(s[0]), (|s| - 1) % 2 == 1) + LuhnPrefix(s[1..], k - 1)
  }

  lemma LuhnPrefixStep(s: string, k: nat)
    requires AllDigits(s) && 0 < k <= |s|
    ensures LuhnPrefix(s, k) == LuhnDigit(DigitValue(s[0]), (|s| - 1) % 2 == 1) + LuhnPrefix(s[1..], k - 1)
  {
  }

  /** Doubling-and-casting-out-nines maps distinct digits to distinct digits. */
  lemma LuhnDigitInjective(a: nat, b: nat, doubled: bool)
    requires a < 10 && b < 10 && a != b
    ensures LuhnDigit(a, doubled) != LuhnDigit(b, doubled)
  {
  }

  /**
   * The Luhn checksum detects every single-digit error: two digit strings of
   * the same length that differ in exactly one position never both pass.
   */
  lemma {:induction false} LuhnDetectsSingleDigitError(s: string, t: string, k: nat)
    requires AllDigits(s) && AllDigits(t) && |s| == |t| && k < |s|
    requires s[k] != t[k]
    requires forall i :: 0 <= i < |s| && i != k ==> s[i] == t[i]
    ensures LuhnSum(s) % 10 != LuhnSum(t) % 10
  {
    LuhnSumAt(s, k);
    LuhnSumAt(t, k);
    assert s[k + 1..] == t[k + 1..];
    PrefixAgree(s, t, k);
    var dbl := (|s| - 1 - k) % 2 == 1;
    LuhnDigitInjective(DigitValue(s[k]), DigitValue(t[k]), dbl);
    var x := LuhnDigit(DigitValue(s[k]), dbl);
    var y := LuhnDigit(DigitValue(t[k]), dbl);
    var rest := LuhnPrefix(s, k) + LuhnSum(s[k + 1..]);
    assert LuhnSum(s) == rest + x;
    assert LuhnSum(t) == rest + y;
    ModDiffers(rest, x, y);
  }

  lemma {:induction false} PrefixAgree(s: string, t: string, k: nat)
    requires AllDigits(s) && AllDigits(t) && |s| == |t| && k <= |s|
    requires forall i :: 0 <= i < k ==> s[i] == t[i]
    ensures LuhnPrefix(s, k) == LuhnPrefix(t, k)
    decreases k
  {
    if k > 0 {
      PrefixAgree(s[1..], t[1..], k - 1);
    }
  }

  lemma ModDiffers(rest: nat, x: nat, y: nat)
    requires x < 10 && y < 10 && x != y
    ensures (rest + x) % 10 != (rest + y) % 10
  {
  }

  // ---------------------------------------------------------------- CVV, expiry

  function ValidateCVV(cvv: string): (o: Outcome)
    ensures o.Pass? <==> 3 <= |cvv| <= 4 && AllDigits(cvv)
    ensures o.Fail? && (|cvv| < 3 || |cvv| > 4) ==> o.error == Plain("CVV must be 3 or 4 digits")
  {
    if |cvv| < 3 || |cvv| > 4 then Fail(Plain("CVV must be 3 or 4 digits"))
    else if !AllDigits(cvv) then Fail(Plain("CVV must contain only digits"))
    else Pass
  }

  /** The text matches `^\d{2}/\d{2}$`. */
  predicate IsExpiryFormat(s: string)
  {
    |s| == 5 && IsDigit(s[0]) && IsDigit(s[1]) && s[2] == '/' && IsDigit(s[3]) && IsDigit(s[4])
  }

  function ValidateExpiryDate(expiry: string): (o: Outcome)
    ensures o.Pass? <==>
      IsExpiryFormat(expiry) && 1 <= 10 * DigitValue(expiry[0]) + DigitValue(expiry[1]) <= 12
    // the year check of the source can never fail: two digits never read as a negative number
    ensures o != Fail(Plain("invalid year in expiry date"))
  {
    if !IsExpiryFormat(expiry) then Fail(Plain("expiry date must be in MM/YY format"))
    else
      // `fmt.Sscanf(part, "%d", ...)` of the two-digit parts split at '/'
      var month := 10 * DigitValue(expiry[0]) + DigitValue(expiry[1]);
      var year := 10 * DigitValue(expiry[3]) + DigitValue(expiry[4]);
      if month < 1 || month > 12 then Fail(Plain("invalid month in expiry date"))
      else if year < 0 then Fail(Plain("invalid year in expiry date"))
      else Pass
  }

  // ---------------------------------------------------------------- e-mail

  predicate IsEmailLocalChar(c: char)
  {
    IsLetter(c) || IsDigit(c) || c in "._%+-"
  }

  predicate IsEmailDomainChar(c: char)
  {
    IsLetter(c) || IsDigit(c) || c in ".-"
  }

  /**
   * The address matches `^[a-zA-Z0-9._%+\-]+@[a-zA-Z0-9.\-]+\.[a-zA-Z]{2,}$`:
   * a local part before position `at`, a domain between `at` and `dot`, and
   * a top-level label of at least two letters after `dot`.
   */
  predicate EmailSplitAt(s: string, at: int, dot: int)
  {
    0 < at && at + 1 < dot && dot + 2 < |s| + 1 &&
    s[at] == '@' && s[dot] == '.' &&
    (forall i :: 0 <= i < at ==> IsEmailLocalChar(s[i])) &&
    (forall i :: at < i < dot ==> IsEmailDomainChar(s[i])) &&
    (forall i :: dot < i < |s| ==> IsLetter(s[i])) &&
    |s| - dot - 1 >= 2
  }

  predicate IsEmail(s: string)
  {
    exists at, dot :: 0 <= at < dot < |s| && EmailSplitAt(s, at, dot)
  }

  function ValidateEmail(email: string): (o: Outcome)
    ensures o.Pass? <==> IsEmail(email)
    ensures o.Fail? ==> o.error == Plain("invalid email address")
  {
    if IsEmail(email) then Pass else Fail(Plain("invalid email address"))
  }

  /** A valid address holds exactly one `@`: neither the local part nor the domain may contain one. */
  lemma EmailHasOneAt(s: string, at: int, dot: int)
    requires EmailSplitAt(s, at, dot)
    ensures forall i :: 0 <= i < |s| && s[i] == '@' ==> i == at
  {
  }

  lemma ExampleEmailIsValid()
    ensures IsEmail("user@example.com")
  {
    assert EmailSplitAt("user@example.com", 4, 12);
  }

  // ---------------------------------------------------------------- phone

  function NormalizedPhone(phone: string): string
  {
    RemoveAll(RemoveAll(RemoveAll(RemoveAll(RemoveAll(phone, ' '), '-'), '('), ')'), '+')
  }

  function ValidatePhone(phone: string): (o: Outcome)
    ensures o.Pass? <==> 10 <= |NormalizedPhone(phone)| <= 15 && AllDigits(NormalizedPhone(phone))
  {
    var p := NormalizedPhone(phone);
    if |p| < 10 || |p| > 15 then Fail(Plain("invalid phone number length"))
    else if !AllDigits(p) then Fail(Plain("phone number must contain only digits"))
    else Pass
  }

  // ---------------------------------------------------------------- amount

  /** The range check every payment method applies; the bounds are checked before the sign. */
  function ValidateAmount(amount: real, min: real, max: real): (o: Outcome)
    ensures o.Pass? <==> min <= amount <= max && amount >= 0.0
    ensures amount < min ==> o == Fail(Plain("amount " + Fixed2(amount) + " is below minimum " + Fixed2(min)))
    ensures min <= amount && amount > max ==>
      o == Fail(Plain("amount " + Fixed2(amount) + " exceeds maximum " + Fixed2(max)))
  {
    if amount < min then Fail(Plain("amount " + Fixed2(amount) + " is below minimum " + Fixed2(min)))
    else if amount > max then Fail(Plain("amount " + Fixed2(amount) + " exceeds maximum " + Fixed2(max)))
    else if amount < 0.0 then Fail(Plain("amount cannot be negative"))
    else Pass
  }

  /** With a non-negative minimum the sign check is never the one that fails. */
  lemma NegativeCheckShadowed(amount: real, min: real, max: real)
    requires min >= 0.0
    ensures ValidateAmount(amount, min, max) != Fail(Plain("amount cannot be negative"))
  {
  }

  // ---------------------------------------------------------------- wallet addresses

  /** The Base58 alphabet: `[a-km-zA-HJ-NP-Z1-9]`. */
  predicate IsBase58Char(c: char)
  {
    ('a' <= c <= 'k') || ('m' <= c <= 'z') || ('A' <= c <= 'H') || ('J' <= c <= 'N') ||
    ('P' <= c <= 'Z') || ('1' <= c <= '9')
  }

  /** `^[13][a-km-zA-HJ-NP-Z1-9]{25,34}$`. */
  predicate IsLegacyBitcoinAddress(s: string)
  {
    26 <= |s| <= 35 && (s[0] == '1' || s[0] == '3') && forall i :: 1 <= i < |s| ==> IsBase58Char(s[i])
  }

  /** `^bc1[a-z0-9]{39,59}$`. */
  predicate IsBech32BitcoinAddress(s: string)
  {
    42 <= |s| <= 62 && s[..3] == "bc1" && forall i :: 3 <= i < |s| ==> IsLower(s[i]) || IsDigit(s[i])
  }

  function ValidateBitcoinAddress(address: string): (o: Outcome)
    ensures o.Pass? <==> IsLegacyBitcoinAddress(address)
  {
    if |address| < 26 || |address| > 35 then Fail(Plain("invalid Bitcoin address length"))
    else if !(IsLegacyBitcoinAddress(address) || IsBech32BitcoinAddress(address)) then
      Fail(Plain("invalid Bitcoin address format"))
    else Pass
  }

  /**
   * The length check admits at most 35 characters while the `bc1` branch of
   * the pattern needs at least 42, so no `bc1` address is ever accepted.
   */
  lemma Bech32AddressesRejected(address: string)
    requires IsBech32BitcoinAddress(address)
    ensures ValidateBitcoinAddress(address) == Fail(Plain("invalid Bitcoin address length"))
  {
  }

  predicate IsHexChar(c: char)
  {
    IsDigit(c) || ('a' <= c <= 'f') || ('A' <= c <= 'F')
  }

  /** `^0x[a-fA-F0-9]{40}$`. */
  predicate IsEthereumAddress(s: string)
  {
    |s| == 42 && s[0] == '0' && s[1] == 'x' && forall i :: 2 <= i < |s| ==> IsHexChar(s[i])
  }

  function ValidateEthereumAddress(address: string): (o: Outcome)
    ensures o.Pass? <==> IsEthereumAddress(address)
  {
    if |address| != 42 then Fail(Plain("invalid Ethereum address length"))
    else if !IsEthereumAddress(address) then Fail(Plain("invalid Ethereum address format"))
    else Pass
  }

  /** Address validation by currency; USDT addresses are Ethereum addresses. */
  function ValidateCryptoAddress(address: string, currency: string): (o: Outcome)
    ensures ToUpper(currency) == "BTC" ==> (o.Pass? <==> IsLegacyBitcoinAddress(address))
    ensures ToUpper(currency) in {"ETH", "USDT"} ==> (o.Pass? <==> IsEthereumAddress(address))
    ensures ToUpper(currency) !in {"BTC", "ETH", "USDT"} ==>
      o == Fail(Plain("unsupported cryptocurrency: " + currency))
  {
    var c := ToUpper(currency);
    if c == "BTC" then ValidateBitcoinAddress(address)
    else if c == "ETH" then ValidateEthereumAddress(address)
    else if c == "USDT" then ValidateEthereumAddress(address)
    else Fail(Plain("unsupported cryptocurrency: " + currency))
  }
}
