/** Shared vocabulary of the hotel booking model: the JSON values a booking
    record holds, the exceptions the Python code lets escape, and the Python
    conversions between text and numbers (str(), int(), float(), isdigit(),
    strip(), lower(), upper()) restricted to ASCII text. */
module Common {

  datatype Option<T> = None | Some(value: T) {
    function GetOr(default: T): T {
      if Some? then value else default
    }
  }

  /** The exceptions the modelled code raises to its caller. */
  datatype Failure =
    | IoError         // save_bookings could not open bookings.json for writing
    | TypeError       // datetime.strptime was handed a value that is not a str
    | ValueError      // int() was handed text that is not an integer
    | AttributeError  // an attribute was read before it was ever assigned

  datatype Result<T> = Ok(value: T) | Err(error: Failure)

  /** A JSON scalar as json.load returns it. */
  datatype Value = Str(s: string) | Int(i: int) | Num(r: real) | Bool(b: bool) | Null

  /** A booking record: a JSON object, i.e. a Python dict with str keys. */
  type Record = map<string, Value>

  /** dict.get(key, default) */
  function Get(m: Record, key: string, default: Value): Value {
    if key in m then m[key] else default
  }

  /** Python truthiness of a JSON scalar. */
  predicate Truthy(v: Value) {
    match v
    case Str(s) => s != ""
    case Int(i) => i != 0
    case Num(r) => r != 0.0
    case Bool(b) => b
    case Null => false
  }

  /** str(v). A float is spelled exactly only when it is integral and below
      10^16 in magnitude; any other float gets a fixed placeholder. */
  function ToStr(v: Value): string {
    match v
    case Str(s) => s
    case Int(i) => IntToStr(i)
    case Num(r) =>
      if r == r.Floor as real && -10_000_000_000_000_000 < r.Floor < 10_000_000_000_000_000
      then IntToStr(r.Floor) + ".0"
      else "<float>"
    case Bool(b) => if b then "True" else "False"
    case Null => "None"
  }

  /** A value that is truthy never prints as the empty string. */
  lemma TruthyToStrNonEmpty(v: Value)
    requires Truthy(v)
    ensures ToStr(v) != ""
  {
    match v
    case Int(i) => NatToStrDigits(if i < 0 then -i else i);
    case Num(r) =>
      if r == r.Floor as real {
        NatToStrDigits(if r.Floor < 0 then -r.Floor else r.Floor);
      }
    case _ =>
  }

  // ---------------------------------------------------------------------
  // Digits and decimal numerals

  predicate IsDigit(c: char) {
    '0' <= c <= '9'
  }

  predicate AllDigits(s: string) {
    forall i :: 0 <= i < |s| ==> IsDigit(s[i])
  }

  /** str.isdigit(): non-empty and made of digits only. */
  predicate IsDigitText(s: string) {
    |s| > 0 && AllDigits(s)
  }

  function DigitValue(c: char): nat
    requires IsDigit(c)
  {
    c as int - '0' as int
  }

  function DigitChar(d: nat): char
    requires d < 10
  {
    ('0' as int + d) as char
  }

  /** The number a string of digits denotes, read most significant first. */
  function DigitsValue(s: string): nat
    requires AllDigits(s)
  {
    if s == [] then 0 else DigitsValue(s[..|s| - 1]) * 10 + DigitValue(s[|s| - 1])
  }

  function Pow10(n: nat): (p: nat)
    ensures p >= 1
  {
    if n == 0 then 1 else 10 * Pow10(n - 1)
  }

  /** str(n) for a natural number. */
  function NatToStr(n: nat): string {
    if n < 10 then [DigitChar(n)] else NatToStr(n / 10) + [DigitChar(n % 10)]
  }

  /** str(i) for an int. */
  function IntToStr(i: int): string {
    if i < 0 then "-" + NatToStr(-i) else NatToStr(i)
  }

  lemma DigitsValueSnoc(s: string, c: char)
    requires AllDigits(s) && IsDigit(c)
    ensures AllDigits(s + [c]) && DigitsValue(s + [c]) == DigitsValue(s) * 10 + DigitValue(c)
  {
    assert (s + [c])[..|s|] == s;
  }

  /** str() of a natural number is a non-empty digit string that denotes it. */
  lemma {:induction false} NatToStrDigits(n: nat)
    ensures IsDigitText(NatToStr(n)) && DigitsValue(NatToStr(n)) == n
  {
    if n >= 10 {
      NatToStrDigits(n / 10);
      DigitsValueSnoc(NatToStr(n / 10), DigitChar(n % 10));
    }
  }

  // ---------------------------------------------------------------------
  // Whitespace, case, searching

  /** str.isspace() on ASCII: space, \t \n \v \f \r and the separators 0x1C-0x1F. */
  predicate IsSpace(c: char) {
    c == ' ' || ('\t' <= c <= '\r') || ('\U{1C}' <= c <= '\U{1F}')
  }

  function StripLeft(s: string): string {
    if s != [] && IsSpace(s[0]) then StripLeft(s[1..]) else s
  }

  function StripRight(s: string): string {
    if s != [] && IsSpace(s[|s| - 1]) then StripRight(s[..|s| - 1]) else s
  }

  /** str.strip() */
  function Strip(s: string): string {
    StripRight(StripLeft(s))
  }

  lemma {:induction false} StripLeftEmpty(s: string)
    ensures StripLeft(s) == [] <==> forall i :: 0 <= i < |s| ==> IsSpace(s[i])
    ensures StripLeft(s) != [] ==> !IsSpace(StripLeft(s)[0])
  {
    if s != [] && IsSpace(s[0]) {
      StripLeftEmpty(s[1..]);
      assert forall i :: 1 <= i < |s| ==> s[i] == s[1..][i - 1];
    }
  }

  lemma {:induction false} StripRightEmpty(s: string)
    ensures StripRight(s) == [] <==> forall i :: 0 <= i < |s| ==> IsSpace(s[i])
    ensures StripRight(s) != [] ==> StripRight(s)[0] == s[0]
  {
    if s != [] && IsSpace(s[|s| - 1]) {
      StripRightEmpty(s[..|s| - 1]);
    }
  }

  /** strip() leaves nothing exactly when the text is all whitespace. */
  lemma StripEmptyIffBlank(s: string)
    ensures Strip(s) == [] <==> forall i :: 0 <= i < |s| ==> IsSpace(s[i])
  {
    StripLeftEmpty(s);
    StripRightEmpty(StripLeft(s));
    if StripLeft(s) != [] {
      assert !IsSpace(StripLeft(s)[0]);
    }
  }

  /** strip() changes nothing when neither end is whitespace. */
  lemma StripNoSpaceEnds(s: string)
    requires s != [] && !IsSpace(s[0]) && !IsSpace(s[|s| - 1])
    ensures Strip(s) == s
  {
  }

  function LowerChar(c: char): char {
    if 'A' <= c <= 'Z' then (c as int + 32) as char else c
  }

  function UpperChar(c: char): char {
    if 'a' <= c <= 'z' then (c as int - 32) as char else c
  }

  /** str.lower() on ASCII letters. */
  function Lower(s: string): string {
    seq(|s|, i requires 0 <= i < |s| => LowerChar(s[i]))
  }

  /** str.upper() on ASCII letters. */
  function Upper(s: string): string {
    seq(|s|, i requires 0 <= i < |s| => UpperChar(s[i]))
  }

  /** s.find(c) as an option: the first position holding c. */
  function IndexOf(s: string, c: char): (r: Option<nat>)
    ensures r.Some? ==> r.value < |s| && s[r.value] == c && forall j :: 0 <= j < r.value ==> s[j] != c
    ensures r.None? ==> forall j :: 0 <= j < |s| ==> s[j] != c
  {
    if s == [] then None
    else if s[0] == c then Some(0)
    else match IndexOf(s[1..], c)
      case None => None
      case Some(k) => Some(k + 1)
  }

  /** s.replace(c, "") */
  function RemoveChar(s: string, c: char): string {
    if s == [] then [] else (if s[0] == c then [] else [s[0]]) + RemoveChar(s[1..], c)
  }

  // ---------------------------------------------------------------------
  // int() and float() applied to text

  /** int(s) for a str: surrounding whitespace, an optional sign and at least
      one digit; None where Python raises ValueError. */
  function ParseInt(s: string): Option<int> {
    var t := Strip(s);
    if t != [] && (t[0] == '-' || t[0] == '+') then
      var body := t[1..];
      if IsDigitText(body) then
        var v: int := DigitsValue(body);
        Some(if t[0] == '-' then -v else v)
      else None
    else if IsDigitText(t) then Some(DigitsValue(t))
    else None
  }

  /** int() reads back what str() wrote. */
  lemma ParseIntOfIntToStr(i: int)
    ensures ParseInt(IntToStr(i)) == Some(i)
  {
    var n: nat := if i < 0 then -i else i;
    NatToStrDigits(n);
    var s := IntToStr(i);
    assert s[|s| - 1] == NatToStr(n)[|NatToStr(n)| - 1];
    StripNoSpaceEnds(s);
    if i < 0 {
      assert s[1..] == NatToStr(n);
    }
  }

  /** float(s) for a str: surrounding whitespace, an optional sign, digits
      with at most one decimal point and at least one digit in all. */
  function ParseFloat(s: string): Option<real> {
    var t := Strip(s);
    if t != [] && (t[0] == '-' || t[0] == '+') then
      match ParseUnsignedDecimal(t[1..])
      case None => None
      case Some(x) => Some(if t[0] == '-' then -x else x)
    else ParseUnsignedDecimal(t)
  }

  function ParseUnsignedDecimal(t: string): Option<real> {
    match IndexOf(t, '.')
    case None => if IsDigitText(t) then Some(DigitsValue(t) as real) else None
    case Some(k) =>
      var whole, frac := t[..k], t[k + 1..];
      if AllDigits(whole) && AllDigits(frac) && |whole| + |frac| > 0
      then Some(DigitsValue(whole) as real + DigitsValue(frac) as real / Pow10(|frac|) as real)
      else None
  }

  /** int(x) for a float: truncation toward zero. */
  function Truncate(r: real): int {
    if r >= 0.0 then r.Floor else -((-r).Floor)
  }
}
