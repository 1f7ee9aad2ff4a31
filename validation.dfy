/** The request-body rules of the backend (express-validator chains) and the gate that
    answers 400 when any rule failed. Each chain reads one body field, may trim it, and
    contributes one message per failed check; all checks of a chain run (no chain
    stops at its first failure). */
module Validation {

  import opened Common

  /** One field of a JSON request body, as the validators see it. A number or boolean
      in the body reaches them as its JavaScript string form. */
  datatype Field = Absent | Null | Given(text: string)

  /** The string every validator works on: a missing or null field reads as "". */
  function Text(f: Field): (s: string)
    ensures f.Given? ==> s == f.text
    ensures !f.Given? ==> s == ""
  {
    if f.Given? then f.text else ""
  }

  // ---------------------------------------------------------------- trimming

  /** The characters JavaScript's `\s` matches, which `trim()` strips at both ends. */
  predicate IsSpace(c: char)
  {
    c in {' ', '\t', '\n', '\U{B}', '\U{C}', '\r', '\U{A0}', '\U{1680}', '\U{2028}',
          '\U{2029}', '\U{202F}', '\U{205F}', '\U{3000}', '\U{FEFF}'}
    || '\U{2000}' <= c <= '\U{200A}'
  }

  function TrimStart(s: string): (r: string)
    ensures |r| <= |s| && r == s[|s| - |r|..]
    ensures r == [] || !IsSpace(r[0])
    ensures forall i :: 0 <= i < |s| - |r| ==> IsSpace(s[i])
  {
    if s != [] && IsSpace(s[0]) then TrimStart(s[1..]) else s
  }

  function TrimEnd(s: string): (r: string)
    ensures |r| <= |s| && r == s[..|r|]
    ensures r == [] || !IsSpace(r[|r| - 1])
    ensures forall i :: |r| <= i < |s| ==> IsSpace(s[i])
  {
    if s != [] && IsSpace(s[|s| - 1]) then TrimEnd(s[..|s| - 1]) else s
  }

  /** The `trim()` sanitizer: the longest inner piece of `s` that neither starts nor ends
      with white space, all of whose surroundings are white space. */
  function Trim(s: string): (r: string)
    ensures |r| <= |s|
    ensures r == [] || (!IsSpace(r[0]) && !IsSpace(r[|r| - 1]))
  {
    TrimEnd(TrimStart(s))
  }

  /** What trimming strips is white space only: a string that neither starts nor ends
      with white space is its own trim. */
  lemma TrimKeepsInner(s: string)
    requires s == [] || (!IsSpace(s[0]) && !IsSpace(s[|s| - 1]))
    ensures Trim(s) == s
  {
  }

  /** Trimming removes exactly the white space at the two ends: `s` is the trim of
      itself surrounded by white space. */
  lemma TrimStripsEnds(pre: string, s: string, post: string)
    requires forall i :: 0 <= i < |pre| ==> IsSpace(pre[i])
    requires forall i :: 0 <= i < |post| ==> IsSpace(post[i])
    requires s != [] && !IsSpace(s[0]) && !IsSpace(s[|s| - 1])
    ensures Trim(pre + s + post) == s
  {
    TrimStartSkips(pre, s + post);
    assert pre + s + post == pre + (s + post);
    TrimEndSkips(s, post);
  }

  lemma {:induction false} TrimStartSkips(pre: string, t: string)
    requires forall i :: 0 <= i < |pre| ==> IsSpace(pre[i])
    requires t != [] && !IsSpace(t[0])
    ensures TrimStart(pre + t) == t
  {
    if pre != [] {
      assert (pre + t)[0] == pre[0] && IsSpace(pre[0]);
      assert (pre + t)[1..] == pre[1..] + t;
      assert forall i :: 0 <= i < |pre| - 1 ==> pre[1..][i] == pre[i + 1];
      TrimStartSkips(pre[1..], t);
    }
  }

  lemma {:induction false} TrimEndSkips(t: string, post: string)
    requires forall i :: 0 <= i < |post| ==> IsSpace(post[i])
    requires t != [] && !IsSpace(t[|t| - 1])
    ensures TrimEnd(t + post) == t
  {
    if post != [] {
      var u := t + post;
      assert u[..|u| - 1] == t + post[..|post| - 1];
      TrimEndSkips(t, post[..|post| - 1]);
    }
  }

  /** Trimming twice is trimming once. */
  lemma TrimIdempotent(s: string)
    ensures Trim(Trim(s)) == Trim(s)
  {
    var r := Trim(s);
    assert TrimStart(r) == r;
    assert TrimEnd(r) == r;
  }

  // ---------------------------------------------------------------- digits and numbers

  predicate IsDigit(c: char)
  {
    '0' <= c <= '9'
  }

  predicate AllDigits(s: string)
  {
    forall i :: 0 <= i < |s| ==> IsDigit(s[i])
  }

  function Digit(c: char): (d: nat)
    requires IsDigit(c)
    ensures d <= 9
  {
    c as int - '0' as int
  }

  function DigitChar(d: nat): (c: char)
    requires d <= 9
    ensures IsDigit(c) && Digit(c) == d
  {
    ('0' as int + d) as char
  }

  function Pow10(k: nat): (p: nat)
    ensures p >= 1
  {
    if k == 0 then 1 else 10 * Pow10(k - 1)
  }

  /** The number a string of decimal digits denotes ("" denotes 0). */
  function DigitsValue(s: string): nat
    requires AllDigits(s)
  {
    if s == [] then 0 else DigitsValue(s[..|s| - 1]) * 10 + Digit(s[|s| - 1])
  }

  /** The decimal numeral of `n`, without leading zeros. */
  function Decimal(n: nat): (s: string)
    ensures |s| >= 1 && AllDigits(s)
  {
    if n < 10 then [DigitChar(n)] else Decimal(n / 10) + [DigitChar(n % 10)]
  }

  /** The numeral of `n` denotes `n`. */
  lemma {:induction false} DecimalValue(n: nat)
    ensures DigitsValue(Decimal(n)) == n
  {
    if n >= 10 {
      var s := Decimal(n);
      assert s[..|s| - 1] == Decimal(n / 10);
      DecimalValue(n / 10);
    }
  }

  /** A numeral of `k` digits denotes less than 10^k. */
  lemma {:induction false} DigitsValueBelow(s: string)
    requires AllDigits(s)
    ensures DigitsValue(s) < Pow10(|s|)
  {
    if s != [] {
      var t := s[..|s| - 1];
      DigitsValueBelow(t);
      assert DigitsValue(t) * 10 <= (Pow10(|t|) - 1) * 10;
    }
  }

  /** The leading digit of a numeral weighs 10^(k-1). */
  lemma {:induction false} LeadingDigit(s: string)
    requires AllDigits(s) && |s| >= 1
    ensures DigitsValue(s) == Digit(s[0]) * Pow10(|s| - 1) + DigitsValue(s[1..])
  {
    if |s| == 1 {
      assert s[1..] == [];
    } else {
      var t := s[..|s| - 1];
      LeadingDigit(t);
      var u := s[1..];
      assert u[..|u| - 1] == t[1..];
      assert DigitsValue(u) == DigitsValue(t[1..]) * 10 + Digit(s[|s| - 1]);
      assert Pow10(|s| - 1) == Pow10(|t| - 1) * 10;
      ShiftDigit(Digit(s[0]), Pow10(|t| - 1), DigitsValue(t[1..]), Digit(s[|s| - 1]));
    }
  }

  /** Appending a digit multiplies the weight of the leading digit by ten. */
  lemma ShiftDigit(d: int, p: int, r: int, c: int)
    ensures (d * p + r) * 10 + c == d * (p * 10) + (r * 10 + c)
  {
  }

  /** `isInt()` with leading zeros allowed: an optional sign and at least one digit. */
  function ParseInt(s: string): (r: Option<int>)
    ensures r.Some? ==> |s| >= 1
  {
    if s == [] then None
    else
      var signed := s[0] == '-' || s[0] == '+';
      var digits := if signed then s[1..] else s;
      if digits == [] || !AllDigits(digits) then None
      else if s[0] == '-' then Some(-(DigitsValue(digits) as int))
      else Some(DigitsValue(digits))
  }

  /** Every natural number written in decimal parses back to itself. */
  lemma ParseIntDecimal(n: nat)
    ensures ParseInt(Decimal(n)) == Some(n)
  {
    DecimalValue(n);
  }

  // ---------------------------------------------------------------- isFloat

  predicate IsPoint(c: char)
  {
    c == '.'
  }

  predicate IsExponentMark(c: char)
  {
    c == 'e' || c == 'E'
  }

  /** The index of the first character of `s` satisfying `stop`, or |s|. */
  function IndexOf(s: string, stop: char -> bool): (k: nat)
    ensures k <= |s|
    ensures k < |s| ==> stop(s[k])
    ensures forall i :: 0 <= i < k ==> !stop(s[i])
  {
    if s == [] then 0 else if stop(s[0]) then 0 else 1 + IndexOf(s[1..], stop)
  }

  /** Digits, then optionally a '.' and more digits, with at least one digit in all. */
  function ParseMantissa(m: string): (r: Option<real>)
    ensures r.Some? ==> r.value >= 0.0
  {
    var k := IndexOf(m, IsPoint);
    MantissaParts(m[..k], if k < |m| then m[k + 1..] else "")
  }

  /** The number a whole part and a fraction part denote together. */
  function MantissaParts(whole: string, fraction: string): (r: Option<real>)
    ensures r.Some? ==> r.value >= 0.0
  {
    if AllDigits(whole) && AllDigits(fraction) && |whole| + |fraction| >= 1 then
      Some(DigitsValue(whole) as real + FractionValue(fraction))
    else None
  }

  /** The value of the digits after a decimal point. */
  function FractionValue(f: string): (x: real)
    requires AllDigits(f)
    ensures 0.0 <= x
  {
    DigitsValue(f) as real / Pow10(|f|) as real
  }

  /** m × 10^e. */
  function Scale(m: real, e: int): (x: real)
    ensures (x >= 0.0) == (m >= 0.0)
  {
    if e >= 0 then m * Pow10(e) as real else m / Pow10(-e) as real
  }

  /** A mantissa with an optional exponent `e`/`E` (an optional sign and at least one
      digit), and the number it denotes. */
  function ParseUnsigned(body: string): (r: Option<real>)
    ensures r.Some? ==> r.value >= 0.0
  {
    var k := IndexOf(body, IsExponentMark);
    var mantissa := ParseMantissa(body[..k]);
    var exponent := if k == |body| then Some(0) else ParseInt(body[k + 1..]);
    if mantissa.None? || exponent.None? then None
    else Some(Scale(mantissa.value, exponent.value))
  }

  /** `isFloat()` read exactly: an optional sign before an unsigned number. */
  function ParseFloat(s: string): (r: Option<real>)
  {
    if |s| >= 1 && s[0] == '-' then
      var u := ParseUnsigned(s[1..]);
      if u.Some? then Some(-u.value) else None
    else if |s| >= 1 && s[0] == '+' then ParseUnsigned(s[1..])
    else ParseUnsigned(s)
  }

  /** A float below zero is written with a minus sign. */
  lemma NegativeHasMinus(s: string)
    requires ParseFloat(s).Some? && ParseFloat(s).value < 0.0
    ensures s[0] == '-'
  {
  }

  /** Every natural number written in decimal reads back as itself, and with a minus
      sign in front as its negation. */
  lemma ParseFloatDecimal(n: nat)
    ensures ParseFloat(Decimal(n)) == Some(n as real)
    ensures ParseFloat("-" + Decimal(n)) == Some(-(n as real))
  {
    DecimalValue(n);
    ParseFloatNumeral(Decimal(n));
    var t := "-" + Decimal(n);
    assert t[1..] == Decimal(n);
    NegatedNumeral(t);
  }

  lemma ParseFloatUnsigned(s: string)
    requires AllDigits(s) && |s| >= 1
    ensures ParseUnsigned(s) == Some(DigitsValue(s) as real)
  {
    DigitsHaveNoMark(s, IsExponentMark);
    ParseFloatDigits(s);
    assert s[..|s|] == s;
  }

  /** A digit string reads as its value. */
  lemma ParseFloatNumeral(s: string)
    requires AllDigits(s) && |s| >= 1
    ensures ParseFloat(s) == Some(DigitsValue(s) as real)
  {
    ParseFloatUnsigned(s);
    UnsignedNumeral(s);
  }

  /** A minus sign before a digit string reads as minus its value. */
  lemma NegatedNumeral(t: string)
    requires |t| >= 2 && t[0] == '-' && AllDigits(t[1..])
    ensures ParseFloat(t) == Some(-(DigitsValue(t[1..]) as real))
  {
    ParseFloatUnsigned(t[1..]);
    MinusNegates(t, DigitsValue(t[1..]) as real);
  }

  /** A string starting with a digit carries no sign. */
  lemma UnsignedNumeral(s: string)
    requires |s| >= 1 && IsDigit(s[0])
    ensures ParseFloat(s) == ParseUnsigned(s)
  {
  }

  lemma MinusNegates(t: string, v: real)
    requires |t| >= 1 && t[0] == '-' && ParseUnsigned(t[1..]) == Some(v)
    ensures ParseFloat(t) == Some(-v)
  {
  }

  /** A plain numeral is a float without sign or exponent. */
  lemma ParseFloatDigits(s: string)
    requires AllDigits(s) && |s| >= 1
    ensures ParseMantissa(s) == Some(DigitsValue(s) as real)
  {
    DigitsHaveNoMark(s, IsPoint);
    WholeMantissa(s);
  }

  /** A mantissa without a point is all whole part. */
  lemma WholeMantissa(s: string)
    requires AllDigits(s) && |s| >= 1 && IndexOf(s, IsPoint) == |s|
    ensures ParseMantissa(s) == Some(DigitsValue(s) as real)
  {
    assert s[..IndexOf(s, IsPoint)] == s;
    WholeParts(s);
  }

  lemma WholeParts(w: string)
    requires AllDigits(w) && |w| >= 1
    ensures MantissaParts(w, "") == Some(DigitsValue(w) as real)
  {
    EmptyFraction();
  }

  lemma EmptyFraction()
    ensures FractionValue("") == 0.0
  {
    assert DigitsValue("") == 0 && Pow10(0) == 1;
  }

  lemma DigitsHaveNoMark(s: string, stop: char -> bool)
    requires AllDigits(s)
    requires forall c :: IsDigit(c) ==> !stop(c)
    ensures IndexOf(s, stop) == |s|
  {
  }

  // ---------------------------------------------------------------- single checks

  /** The messages of the checks that failed, in order: [] when `ok`. */
  function Check(ok: bool, message: string): (errors: seq<string>)
    ensures errors == [] <==> ok
  {
    if ok then [] else [message]
  }

  /** `/^[6-9]\d{9}$/`: ten ASCII digits, the first of them 6 to 9. */
  predicate PhonePattern(v: string)
  {
    |v| == 10 && AllDigits(v) && '6' <= v[0] <= '9'
  }

  /** A phone number matches exactly when it is a ten-digit numeral whose value lies in
      6000000000..9999999999. */
  lemma PhonePatternValue(v: string)
    requires |v| == 10 && AllDigits(v)
    ensures PhonePattern(v) <==> 6000000000 <= DigitsValue(v) <= 9999999999
  {
    LeadingDigit(v);
    DigitsValueBelow(v);
    DigitsValueBelow(v[1..]);
    assert Pow10(9) == 1000000000;
  }

  /** `isBoolean()` in its strict form. */
  predicate IsBooleanText(v: string)
  {
    v in {"true", "false", "1", "0"}
  }

  /** `isInt({ min: 1, max: 5 })`. */
  predicate RatingText(v: string)
  {
    var n := ParseInt(v);
    n.Some? && 1 <= n.value <= 5
  }

  /** The ratings 1 to 5, written as numerals, are exactly the accepted ones among numerals. */
  lemma RatingDecimal(n: nat)
    ensures RatingText(Decimal(n)) <==> 1 <= n <= 5
  {
    ParseIntDecimal(n);
  }

  // ---------------------------------------------------------------- lengths

  /** The variation selectors U+FE0E and U+FE0F, which `isLength` does not count. */
  predicate IsSelector(c: char)
  {
    c == '\U{FE0E}' || c == '\U{FE0F}'
  }

  /** The length `isLength` measures: code points (a surrogate pair counts once), less the
      variation selectors. */
  function MeasuredLength(s: string): (n: nat)
    ensures n <= |s|
  {
    if s == [] then 0
    else MeasuredLength(s[1..]) + (if IsSelector(s[0]) then 0 else 1)
  }

  /** The measure is the number of code points exactly when no variation selector occurs. */
  lemma {:induction false} MeasuredLengthFull(s: string)
    ensures MeasuredLength(s) == |s| <==> forall i :: 0 <= i < |s| ==> !IsSelector(s[i])
  {
    if s != [] {
      MeasuredLengthFull(s[1..]);
      assert forall i :: 1 <= i < |s| ==> s[1..][i - 1] == s[i];
    }
  }

  /** A password of five letters and a presentation selector has six characters but
      measures 5, so it is refused. */
  lemma SelectorNotCounted()
    ensures |"abcde\U{FE0F}"| == 6
    ensures PasswordChain(Given("abcde\U{FE0F}")) != []
  {
    assert MeasuredLength("\U{FE0F}") == 0;
    assert "abcde\U{FE0F}"[1..] == "bcde\U{FE0F}";
    assert "bcde\U{FE0F}"[1..] == "cde\U{FE0F}";
    assert "cde\U{FE0F}"[1..] == "de\U{FE0F}";
    assert "de\U{FE0F}"[1..] == "e\U{FE0F}";
    assert "e\U{FE0F}"[1..] == "\U{FE0F}";
  }

  // ---------------------------------------------------------------- field chains

  /** `name`: trim, notEmpty, isLength({ min: 2 }). */
  function NameChain(f: Field, required: string): (errors: seq<string>)
    ensures errors == [] <==> MeasuredLength(Trim(Text(f))) >= 2
  {
    var v := Trim(Text(f));
    Check(v != "", required) + Check(MeasuredLength(v) >= 2, "Name must be at least 2 characters")
  }

  /** `email`: trim, notEmpty, isEmail. The e-mail grammar is the parameter `isEmail`. */
  function EmailChain(f: Field, isEmail: string -> bool): (errors: seq<string>)
    ensures errors == [] <==> Trim(Text(f)) != "" && isEmail(Trim(Text(f)))
  {
    var v := Trim(Text(f));
    Check(v != "", "Email is required") + Check(isEmail(v), "Please provide a valid email")
  }

  /** `password`: notEmpty, isLength({ min: 6 }); not trimmed. */
  function PasswordChain(f: Field): (errors: seq<string>)
    ensures errors == [] <==> MeasuredLength(Text(f)) >= 6
  {
    var v := Text(f);
    Check(v != "", "Password is required")
      + Check(MeasuredLength(v) >= 6, "Password must be at least 6 characters")
  }

  /** `phone`: trim, notEmpty, the Indian mobile pattern. */
  function PhoneChain(f: Field): (errors: seq<string>)
    ensures errors == [] <==> PhonePattern(Trim(Text(f)))
  {
    var v := Trim(Text(f));
    Check(v != "", "Phone number is required")
      + Check(PhonePattern(v), "Please provide a valid 10-digit Indian phone number")
  }

  /** A field that must be present and non-empty (after trimming when `trim`). */
  function RequiredChain(f: Field, trim: bool, message: string): (errors: seq<string>)
    ensures errors == [] <==> (if trim then Trim(Text(f)) else Text(f)) != ""
  {
    Check((if trim then Trim(Text(f)) else Text(f)) != "", message)
  }

  /** `optional()` followed by one check: an absent field is not checked at all, while a
      null one is checked as "". */
  function OptionalChain(f: Field, ok: string -> bool, message: string): (errors: seq<string>)
    ensures errors == [] <==> f.Absent? || ok(Text(f))
  {
    if f.Absent? then [] else Check(ok(Text(f)), message)
  }

  // ---------------------------------------------------------------- rule sets

  datatype SignupBody = SignupBody(name: Field, email: Field, password: Field, phone: Field)

  function SignupErrors(b: SignupBody, isEmail: string -> bool): seq<string>
  {
    NameChain(b.name, "Name is required") + EmailChain(b.email, isEmail)
      + PasswordChain(b.password) + PhoneChain(b.phone)
  }

  /** A signup body passes exactly when the trimmed name has two or more characters, the
      trimmed e-mail is non-empty and well formed, the password has six or more
      characters and the trimmed phone matches the pattern. */
  lemma SignupAccepted(b: SignupBody, isEmail: string -> bool)
    ensures SignupErrors(b, isEmail) == [] <==>
      MeasuredLength(Trim(Text(b.name))) >= 2
      && Trim(Text(b.email)) != "" && isEmail(Trim(Text(b.email)))
      && MeasuredLength(Text(b.password)) >= 6
      && PhonePattern(Trim(Text(b.phone)))
  {
  }

  datatype LoginBody = LoginBody(email: Field, password: Field)

  function LoginErrors(b: LoginBody, isEmail: string -> bool): (errors: seq<string>)
    ensures errors == [] <==>
      Trim(Text(b.email)) != "" && isEmail(Trim(Text(b.email))) && Text(b.password) != ""
  {
    EmailChain(b.email, isEmail) + RequiredChain(b.password, false, "Password is required")
  }

  datatype RestaurantSignupBody = RestaurantSignupBody(
    name: Field, email: Field, password: Field, phone: Field,
    address: Field, city: Field, cuisineType: Field)

  /** The restaurant signup adds a required address and city to the user rules;
      `cuisine_type` is only trimmed. */
  function RestaurantSignupErrors(b: RestaurantSignupBody, isEmail: string -> bool): (errors: seq<string>)
    ensures errors == [] <==>
      SignupErrors(SignupBody(b.name, b.email, b.password, b.phone), isEmail) == []
      && Trim(Text(b.address)) != "" && Trim(Text(b.city)) != ""
  {
    NameChain(b.name, "Restaurant name is required") + EmailChain(b.email, isEmail)
      + PasswordChain(b.password) + PhoneChain(b.phone)
      + RequiredChain(b.address, true, "Address is required")
      + RequiredChain(b.city, true, "City is required")
  }

  datatype MenuItemBody = MenuItemBody(
    name: Field, price: Field, category: Field, description: Field,
    isVegetarian: Field, isAvailable: Field)

  /** `isFloat({ min: 0 })`. */
  predicate PriceText(v: string)
  {
    var x := ParseFloat(v);
    x.Some? && x.value >= 0.0
  }

  function MenuItemErrors(b: MenuItemBody): seq<string>
  {
    NameChain(b.name, "Item name is required")
      + RequiredChain(b.price, false, "Price is required")
      + Check(PriceText(Text(b.price)), "Price must be a positive number")
      + OptionalChain(b.isVegetarian, IsBooleanText, "is_vegetarian must be true or false")
      + OptionalChain(b.isAvailable, IsBooleanText, "is_available must be true or false")
  }

  /** A menu item passes exactly when the trimmed name has two or more characters, the
      price is a number no less than zero, and each availability flag that is present
      is a boolean text. Category and description are never rejected. */
  lemma MenuItemAccepted(b: MenuItemBody)
    ensures MenuItemErrors(b) == [] <==>
      MeasuredLength(Trim(Text(b.name))) >= 2
      && b.price.Given? && PriceText(Text(b.price))
      && (b.isVegetarian.Absent? || IsBooleanText(Text(b.isVegetarian)))
      && (b.isAvailable.Absent? || IsBooleanText(Text(b.isAvailable)))
  {
    var e1 := NameChain(b.name, "Item name is required");
    var e2 := RequiredChain(b.price, false, "Price is required");
    var e3 := Check(PriceText(Text(b.price)), "Price must be a positive number");
    var e4 := OptionalChain(b.isVegetarian, IsBooleanText, "is_vegetarian must be true or false");
    var e5 := OptionalChain(b.isAvailable, IsBooleanText, "is_available must be true or false");
    assert (MenuItemErrors(b) == []) == (e1 == [] && e2 == [] && e3 == [] && e4 == [] && e5 == []) by {
      assert MenuItemErrors(b) == e1 + e2 + e3 + e4 + e5;
      NoneOfFive(e1, e2, e3, e4, e5);
    }
    assert (e2 == [] && e3 == []) == (b.price.Given? && PriceText(Text(b.price))) by {
      EmptyPriceRefused();
    }
  }

  /** An empty price text is no number. */
  lemma EmptyPriceRefused()
    ensures !PriceText("")
  {
    assert IndexOf("", IsExponentMark) == 0;
    assert IndexOf("", IsPoint) == 0;
  }

  /** Five lists of messages joined are empty exactly when each is. */
  lemma NoneOfFive(e1: seq<string>, e2: seq<string>, e3: seq<string>, e4: seq<string>, e5: seq<string>)
    ensures e1 + e2 + e3 + e4 + e5 == [] <==> e1 == [] && e2 == [] && e3 == [] && e4 == [] && e5 == []
  {
    assert |e1 + e2 + e3 + e4 + e5| == |e1| + |e2| + |e3| + |e4| + |e5|;
  }

  /** Any price text that reads as a negative number is refused; in particular a positive
      whole number with a minus sign is, while the same number without it is accepted. */
  lemma NegativePriceRefused(b: MenuItemBody, n: nat)
    requires n > 0
    ensures ParseFloat(Text(b.price)).Some? && ParseFloat(Text(b.price)).value < 0.0 ==> MenuItemErrors(b) != []
    ensures b.price == Given("-" + Decimal(n)) ==> MenuItemErrors(b) != []
    ensures (b.price == Given(Decimal(n)) && MeasuredLength(Trim(Text(b.name))) >= 2
             && b.isVegetarian.Absent? && b.isAvailable.Absent?) ==> MenuItemErrors(b) == []
  {
    ParseFloatDecimal(n);
    MenuItemAccepted(b);
  }

  datatype ReviewBody = ReviewBody(
    orderId: Field, restaurantRating: Field, restaurantReview: Field,
    deliveryRating: Field, deliveryReview: Field)

  function ReviewErrors(b: ReviewBody): seq<string>
  {
    RequiredChain(b.orderId, false, "Order ID is required")
      + RequiredChain(b.restaurantRating, false, "Restaurant rating is required")
      + Check(RatingText(Text(b.restaurantRating)), "Rating must be between 1 and 5")
      + OptionalChain(b.deliveryRating, RatingText, "Delivery rating must be between 1 and 5")
  }

  /** A review passes exactly when an order id is given, the restaurant rating is an integer
      1 to 5, and the delivery rating is absent or an integer 1 to 5 (a null delivery
      rating is refused). */
  lemma ReviewAccepted(b: ReviewBody)
    ensures ReviewErrors(b) == [] <==>
      Text(b.orderId) != ""
      && RatingText(Text(b.restaurantRating))
      && (b.deliveryRating.Absent? || RatingText(Text(b.deliveryRating)))
  {
  }

  // ---------------------------------------------------------------- the gate

  datatype Response = BadRequest(errors: seq<string>) | Next

  /** `validate`: answer 400 with every collected message, or hand over to the handler. */
  function Validate(errors: seq<string>): (r: Response)
    ensures r == Next <==> errors == []
    ensures r.BadRequest? ==> r.errors == errors
  {
    if errors != [] then BadRequest(errors) else Next
  }
}
