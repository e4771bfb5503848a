/**
 * The PHP value semantics the handlers rely on: the values the XML-RPC decoder
 * hands to a handler, `isset`, `empty`, truthiness, the `(int)` cast, `is_numeric`,
 * loose comparison against a string, string conversion and array keys, and the
 * few string functions (`trim`, `htmlspecialchars`, `split`, `implode`) the
 * projector applies.
 */
module Php {
  import opened Wrappers

  /** A value as a handler receives it from the XML-RPC decoder, or builds it for a reply. */
  datatype Value =
    | VNull
    | VBool(b: bool)
    | VInt(i: int)
    | VStr(s: string)
    | VDate(iso: string)                    // an IXR_Date object, kept as its ISO 8601 text
    | VList(items: seq<Value>)              // an XML-RPC array
    | VStruct(members: map<string, Value>)  // an XML-RPC struct

  /** A decoded XML-RPC struct, such as a request's content_struct. */
  type Struct = map<string, Value>

  /** `isset($m[$k])`: the key is there and its value is not null. */
  predicate IsSet(m: Struct, k: string) {
    k in m && !m[k].VNull?
  }

  /** `$m[$k]`, which reads as null when the key is missing. */
  function Get(m: Struct, k: string): (v: Value)
    ensures IsSet(m, k) <==> !v.VNull?
    ensures k !in m ==> v == VNull
  {
    if k in m then m[k] else VNull
  }

  /** `$data[to] = $m[from]`, done only when `$m[when]` is set. */
  function CopyIf(data: Struct, m: Struct, when: string, to: string, from: string): (r: Struct)
    ensures IsSet(m, when) ==> r == data[to := Get(m, from)]
    ensures !IsSet(m, when) ==> r == data
  {
    if IsSet(m, when) then data[to := Get(m, from)] else data
  }

  /** PHP's conversion to boolean. */
  predicate Truthy(v: Value) {
    match v
    case VNull => false
    case VBool(b) => b
    case VInt(i) => i != 0
    case VStr(s) => s != "" && s != "0"
    case VDate(_) => true
    case VList(xs) => |xs| > 0
    case VStruct(m) => |m| > 0
  }

  /** `empty($m[$k])`. */
  predicate IsEmpty(m: Struct, k: string) {
    !Truthy(Get(m, k))
  }

  predicate IsDigit(c: char) {
    '0' <= c <= '9'
  }

  predicate AllDigits(s: string) {
    forall i :: 0 <= i < |s| ==> IsDigit(s[i])
  }

  function DigitValue(c: char): nat
    requires IsDigit(c)
  {
    c as int - '0' as int
  }

  function DigitChar(d: nat): (c: char)
    requires d < 10
    ensures IsDigit(c) && DigitValue(c) == d
  {
    ('0' as int + d) as char
  }

  /** The number a string of decimal digits denotes. */
  function DigitsValue(s: string): nat
    requires AllDigits(s)
  {
    if s == [] then 0 else DigitsValue(s[..|s| - 1]) * 10 + DigitValue(s[|s| - 1])
  }

  /** Length of the longest prefix of `s` made of digits. */
  function DigitRun(s: string): (n: nat)
    ensures n <= |s|
    ensures AllDigits(s[..n])
    ensures n < |s| ==> !IsDigit(s[n])
  {
    if s == [] || !IsDigit(s[0]) then 0
    else
      var n := 1 + DigitRun(s[1..]);
      assert s[..n] == [s[0]] + s[1..][..n - 1];
      n
  }

  /** The number the digits at the start of `s` denote, 0 when there are none. */
  function PrefixValue(s: string): nat {
    var n := DigitRun(s);
    DigitsValue(s[..n])
  }

  /** The white space PHP skips before a number: space, tab, newline, carriage return, vertical tab, form feed. */
  predicate IsNumberSpace(c: char) {
    c == ' ' || c == '\t' || c == '\n' || c == '\r' || c == '\U{B}' || c == '\U{C}'
  }

  /** Length of the white space at the start of `s`. */
  function SpaceRun(s: string): (n: nat)
    ensures n <= |s|
    ensures forall i :: 0 <= i < n ==> IsNumberSpace(s[i])
    ensures n < |s| ==> !IsNumberSpace(s[n])
  {
    if s == [] || !IsNumberSpace(s[0]) then 0
    else
      var n := 1 + SpaceRun(s[1..]);
      assert forall i :: 1 <= i < n ==> s[i] == s[1..][i - 1];
      n
  }

  /**
   * `(int)` applied to a string, which reads it as C's `strtol` does: white
   * space, an optional sign, then the longest run of digits; 0 when no digit
   * follows. A fraction or an exponent ends the run ("1.9" and "1e3" give 1).
   */
  function LeadingInt(s: string): int {
    if |s| > 0 && IsNumberSpace(s[0]) then LeadingInt(s[1..])
    else if |s| > 0 && s[0] == '-' then -(PrefixValue(s[1..]) as int)
    else if |s| > 0 && s[0] == '+' then PrefixValue(s[1..])
    else PrefixValue(s)
  }

  /** 10 to the power `e`. */
  function Pow10(e: nat): (p: nat)
    ensures p >= 1
  {
    if e == 0 then 1 else 10 * Pow10(e - 1)
  }

  /** `x` times 10 to the power `e`. */
  function Scale(x: real, e: int): real {
    if e >= 0 then x * (Pow10(e) as real) else x / (Pow10(-e) as real)
  }

  /**
   * The exponent a mantissa may end with: 'e' or 'E', an optional sign and at
   * least one digit. Its length, 0 when `s` does not start with one, and its
   * signed power of ten.
   */
  function ScanExponent(s: string): (r: (nat, int))
    ensures r.0 <= |s|
  {
    if |s| == 0 || (s[0] != 'e' && s[0] != 'E') then (0, 0)
    else
      var signed := |s| > 1 && (s[1] == '-' || s[1] == '+');
      var start := if signed then 2 else 1;
      var n := DigitRun(s[start..]);
      var e: int := DigitsValue(s[start..][..n]);
      if n == 0 then (0, 0)
      else (start + n, if signed && s[1] == '-' then -e else e)
  }

  /**
   * A number at the start of a string: `length` characters, leading white
   * space included, worth `value`. Length 0 when no number starts the string.
   */
  datatype Number = Number(length: nat, value: real)

  /** Digits with an optional '.' and fraction, at least one digit in all ("5", "5.", ".5", "5.25"). */
  function ScanMantissa(u: string): (n: Number)
    ensures n.length <= |u|
  {
    var a := DigitRun(u);
    var dot := a < |u| && u[a] == '.';
    var b := if dot then DigitRun(u[a + 1..]) else 0;
    if a == 0 && b == 0 then Number(0, 0.0)
    else
      var whole := DigitsValue(u[..a]) as real;
      var fraction := if dot then (DigitsValue(u[a + 1..][..b]) as real) / (Pow10(b) as real) else 0.0;
      Number(if dot then a + 1 + b else a, whole + fraction)
  }

  /** A mantissa and its optional exponent. */
  function ScanUnsigned(u: string): (n: Number)
    ensures n.length <= |u|
  {
    var m := ScanMantissa(u);
    if m.length == 0 then Number(0, 0.0)
    else
      var e := ScanExponent(u[m.length..]);
      Number(m.length + e.0, Scale(m.value, e.1))
  }

  /** An optional sign, then an unsigned number. */
  function ScanSigned(t: string): (n: Number)
    ensures n.length <= |t|
  {
    if |t| > 0 && (t[0] == '-' || t[0] == '+') then
      var n := ScanUnsigned(t[1..]);
      if n.length == 0 then Number(0, 0.0)
      else Number(n.length + 1, if t[0] == '-' then -n.value else n.value)
    else ScanUnsigned(t)
  }

  /**
   * The number PHP reads at the start of `s`: white space, an optional sign,
   * digits with an optional '.' and fraction (at least one digit in all), and
   * an optional exponent.
   */
  function ScanNumber(s: string): (n: Number)
    ensures n.length <= |s|
  {
    var ws := SpaceRun(s);
    var n := ScanSigned(s[ws..]);
    if n.length == 0 then Number(0, 0.0) else Number(ws + n.length, n.value)
  }

  /** Can a number (with its white space) start with `c`? */
  predicate MayStartNumber(c: char) {
    IsNumberSpace(c) || IsDigit(c) || c == '+' || c == '-' || c == '.'
  }

  /**
   * The value of the number `s` starts with, 0 when it starts with none. The
   * first character is tested before the scan, which keeps the scan of a word
   * cheap to rule out (`ScanChecked` shows the test changes nothing).
   */
  function NumberValue(s: string): real {
    if |s| > 0 && MayStartNumber(s[0]) then ScanNumber(s).value else 0.0
  }

  /**
   * `is_numeric` on a string: the whole string is a number as `ScanNumber`
   * reads it (" 5", "1.0", ".5", "1e3" and "-2.5E-1" are; "1 ", "." and "1e" are not).
   * The hexadecimal form PHP 5 also accepted is not part of this model.
   */
  predicate IsNumericString(s: string) {
    |s| > 0 && MayStartNumber(s[0]) && ScanNumber(s).length == |s|
  }

  /** The first-character test of `NumberValue` and `IsNumericString` only skips scans that find nothing. */
  lemma ScanChecked(s: string)
    ensures NumberValue(s) == ScanNumber(s).value
    ensures IsNumericString(s) <==> ScanNumber(s).length > 0 && ScanNumber(s).length == |s|
  {
    if s != [] && !MayStartNumber(s[0]) {
      assert SpaceRun(s) == 0;
      assert s[0..] == s;
      assert DigitRun(s) == 0;
      assert ScanMantissa(s).length == 0;
    }
  }

  /** The digit run of `w + rest` is `w` when `rest` does not go on with a digit. */
  lemma {:induction false} DigitRunOf(w: string, rest: string)
    requires AllDigits(w)
    requires rest == [] || !IsDigit(rest[0])
    ensures DigitRun(w + rest) == |w|
    ensures (w + rest)[..|w|] == w
  {
    if w != [] {
      DigitRunOf(w[1..], rest);
      assert (w + rest)[1..] == w[1..] + rest;
    }
  }

  /** The mantissa of digits, a '.' and more digits is the whole string. */
  lemma DecimalMantissa(w: string, f: string)
    requires |w| > 0 && AllDigits(w) && AllDigits(f)
    ensures ScanMantissa(w + "." + f).length == |w| + 1 + |f|
  {
    var s := w + "." + f;
    DigitRunOf(w, "." + f);
    assert w + ("." + f) == s;
    assert s[|w|] == '.';
    assert s[|w| + 1..] == f;
    DigitRunOf(f, []);
    assert f + [] == f;
  }

  /** Digits, a '.' and more digits make a numeric string. */
  lemma DecimalNumeric(w: string, f: string)
    requires |w| > 0 && AllDigits(w) && AllDigits(f)
    ensures IsNumericString(w + "." + f)
  {
    var s := w + "." + f;
    assert SpaceRun(s) == 0 by {
      assert s[0] == w[0];
    }
    assert s[0..] == s;
    DecimalMantissa(w, f);
    assert ScanUnsigned(s).length == |s| by {
      assert s[|s|..] == [];
    }
    assert ScanSigned(s) == ScanUnsigned(s);
    ScanChecked(s);
  }

  /** `(int)` of a string that starts with a digit is the value of its leading digits. */
  lemma DigitFirstIntVal(s: string)
    requires |s| > 0 && IsDigit(s[0])
    ensures LeadingInt(s) == PrefixValue(s)
  {
    assert SpaceRun(s) == 0;
    assert s[0..] == s;
  }

  /** `(int)` of digits, a '.' and more digits keeps the digits before the '.'. */
  lemma DecimalIntVal(w: string, f: string)
    requires |w| > 0 && AllDigits(w) && AllDigits(f)
    ensures LeadingInt(w + "." + f) == DigitsValue(w)
  {
    var s := w + "." + f;
    assert s == w + ("." + f);
    assert s[0] == w[0];
    DigitFirstIntVal(s);
    DigitRunOf(w, "." + f);
    assert s[..DigitRun(s)] == w;
  }

  /** White space before a string changes neither whether it is numeric nor what it is worth. */
  lemma SpaceBeforeNumber(c: char, s: string)
    requires IsNumberSpace(c)
    ensures IsNumericString([c] + s) <==> IsNumericString(s)
    ensures NumberValue([c] + s) == NumberValue(s)
    ensures LeadingInt([c] + s) == LeadingInt(s)
  {
    var cs := [c] + s;
    assert cs[1..] == s;
    assert SpaceRun(cs) == 1 + SpaceRun(s);
    assert cs[SpaceRun(cs)..] == s[SpaceRun(s)..];
    ScanChecked(cs);
    ScanChecked(s);
  }

  /** A string that starts with a letter or '_' holds no number and is not numeric. */
  lemma WordHasNoNumber(s: string)
    requires |s| > 0 && ('a' <= s[0] <= 'z' || 'A' <= s[0] <= 'Z' || s[0] == '_')
    ensures ScanNumber(s) == Number(0, 0.0)
    ensures !IsNumericString(s)
    ensures NumberValue(s) == 0.0
    ensures LeadingInt(s) == 0
  {
    assert SpaceRun(s) == 0;
    assert s[0..] == s;
    assert DigitRun(s) == 0;
    assert ScanMantissa(s).length == 0;
    assert s[..0] == "";
  }

  /** `is_numeric`. */
  predicate IsNumeric(v: Value) {
    match v
    case VInt(_) => true
    case VStr(s) => IsNumericString(s)
    case _ => false
  }

  /** `(int)` and `intval`. */
  function IntVal(v: Value): int {
    match v
    case VNull => 0
    case VBool(b) => if b then 1 else 0
    case VInt(i) => i
    case VStr(s) => LeadingInt(s)
    case VDate(_) => 1
    case VList(xs) => if |xs| > 0 then 1 else 0
    case VStruct(m) => if |m| > 0 then 1 else 0
  }

  /** `absint`: the absolute value of `intval`. */
  function AbsInt(v: Value): nat {
    var i := IntVal(v);
    if i < 0 then -i else i
  }

  /** Decimal text of a natural number. */
  function NatToString(n: nat): (s: string)
    ensures |s| > 0 && AllDigits(s)
  {
    if n < 10 then [DigitChar(n)] else NatToString(n / 10) + [DigitChar(n % 10)]
  }

  /** `strval` of an integer. */
  function IntToString(i: int): string {
    if i < 0 then "-" + NatToString(-i) else NatToString(i)
  }

  lemma {:induction false} NatToStringValue(n: nat)
    ensures DigitsValue(NatToString(n)) == n
  {
    if n >= 10 {
      NatToStringValue(n / 10);
      var s := NatToString(n);
      assert s[..|s| - 1] == NatToString(n / 10);
    }
  }

  /** Reading back the decimal text of an integer with `(int)` gives the integer. */
  lemma IntToStringRoundTrip(i: int)
    ensures LeadingInt(IntToString(i)) == i
    ensures IntVal(VStr(IntToString(i))) == i
  {
    var n: nat := if i < 0 then -i else i;
    var digits := NatToString(n);
    NatToStringValue(n);
    assert DigitRun(digits) == |digits|;
    assert digits[..|digits|] == digits;
    var text := IntToString(i);
    assert SpaceRun(text) == 0 by {
      assert !IsNumberSpace(text[0]);
    }
    assert text[0..] == text;
    if i < 0 {
      assert text[1..] == digits;
    }
  }

  /**
   * Loose comparison `$v == 'literal'` (the rules of the PHP 5 releases the
   * plugin targets): an integer is compared with the number the string starts
   * with, two numeric strings compare as numbers, other strings as strings.
   */
  predicate LooseEqStr(v: Value, s: string) {
    match v
    case VNull => s == ""
    case VBool(b) => b == Truthy(VStr(s))
    case VInt(i) => i as real == NumberValue(s)
    case VStr(t) =>
      if IsNumericString(t) && IsNumericString(s) then NumberValue(t) == NumberValue(s) else t == s
    case VDate(_) => false
    case VList(_) => false
    case VStruct(_) => false
  }

  /** A string that starts with a letter compares loosely as a string. */
  lemma WordLooseEq(t: string, s: string)
    requires |s| > 0 && 'a' <= s[0] <= 'z'
    ensures LooseEqStr(VStr(t), s) <==> t == s
  {
    WordHasNoNumber(s);
  }

  /**
   * Loose comparison `$v == 'word'` against a literal that starts with a letter:
   * `true` and the integer 0 match every such word, a string matches only itself.
   */
  predicate WordEq(v: Value, word: string) {
    match v
    case VBool(b) => b
    case VInt(i) => i == 0
    case VStr(t) => t == word
    case _ => false
  }

  lemma WordEqIsLooseEq(v: Value, word: string)
    requires |word| > 0 && 'a' <= word[0] <= 'z'
    ensures WordEq(v, word) <==> LooseEqStr(v, word)
  {
    WordHasNoNumber(word);
  }

  /** Loose comparison `$i == $v` of an integer with a value. */
  predicate LooseEqInt(i: int, v: Value) {
    match v
    case VNull => i == 0
    case VBool(b) => (i != 0) == b
    case VInt(j) => i == j
    case VStr(t) => i as real == NumberValue(t)
    case VDate(_) => false
    case VList(_) => false
    case VStruct(_) => false
  }

  /** Conversion to string, as in `"{$v}"` or `$a . $b`. */
  function Str(v: Value): string {
    match v
    case VNull => ""
    case VBool(b) => if b then "1" else ""
    case VInt(i) => IntToString(i)
    case VStr(s) => s
    case VDate(iso) => iso
    case VList(_) => "Array"
    case VStruct(_) => "Array"
  }

  /** The string key `$array[$v]` looks up, or None for a value PHP refuses as an array key. */
  function ArrayKey(v: Value): Option<string> {
    match v
    case VNull => Some("")
    case VBool(b) => Some(if b then "1" else "0")
    case VInt(i) => Some(IntToString(i))
    case VStr(s) => Some(s)
    case _ => None
  }

  /**
   * A key as `foreach` or `array_keys` hands it out: a key that is the canonical
   * decimal text of an integer is an integer key in a PHP array.
   */
  function KeyValue(k: string): Value {
    if k == IntToString(LeadingInt(k)) then VInt(LeadingInt(k)) else VStr(k)
  }

  /** The characters `trim` removes. */
  predicate IsSpace(c: char) {
    c == ' ' || c == '\t' || c == '\n' || c == '\r' || c == '\0' || c == '\U{B}'
  }

  function TrimLeft(s: string): (r: string)
    ensures |r| <= |s| && r == s[|s| - |r|..]
    ensures r == [] || !IsSpace(r[0])
    ensures forall i :: 0 <= i < |s| - |r| ==> IsSpace(s[i])
  {
    if s != [] && IsSpace(s[0]) then TrimLeft(s[1..]) else s
  }

  function TrimRight(s: string): (r: string)
    ensures |r| <= |s| && r == s[..|r|]
    ensures r == [] || !IsSpace(r[|r| - 1])
    ensures forall i :: |r| <= i < |s| ==> IsSpace(s[i])
  {
    if s != [] && IsSpace(s[|s| - 1]) then TrimRight(s[..|s| - 1]) else s
  }

  /** `trim`: `s` without its leading and trailing white space. */
  function Trim(s: string): (r: string)
    ensures r == [] || (!IsSpace(r[0]) && !IsSpace(r[|r| - 1]))
    ensures |r| <= |s|
    ensures (s == [] || (!IsSpace(s[0]) && !IsSpace(s[|s| - 1]))) ==> r == s
  {
    TrimRight(TrimLeft(s))
  }

  lemma TrimIdempotent(s: string)
    ensures Trim(Trim(s)) == Trim(s)
  {
  }

  /**
   * `trim($v)` of a request value: an array or an object (a date) is not a
   * string, so `trim` gives null, which reads as "".
   */
  function TrimValue(v: Value): (r: string)
    ensures Trim(r) == r
  {
    if v.VList? || v.VStruct? || v.VDate? then ""
    else
      var s := Str(v);
      TrimIdempotent(s);
      Trim(s)
  }

  /** `htmlspecialchars` with its default flags: escapes `&`, `"`, `<` and `>`. */
  function HtmlSpecialChars(s: string): string {
    if s == [] then [] else EscapeChar(s[0]) + HtmlSpecialChars(s[1..])
  }

  /** The entity `htmlspecialchars` writes for one character. */
  function EscapeChar(c: char): string {
    match c
    case '&' => "&amp;"
    case '"' => "&quot;"
    case '<' => "&lt;"
    case '>' => "&gt;"
    case _ => [c]
  }

  /** The escaped text holds no `<`, `>` or `"`, and text without `&`, `"`, `<` or `>` is left as it is. */
  lemma {:induction false} EscapedHasNoMarkup(s: string)
    ensures forall i :: 0 <= i < |HtmlSpecialChars(s)| ==>
      HtmlSpecialChars(s)[i] != '<' && HtmlSpecialChars(s)[i] != '>' && HtmlSpecialChars(s)[i] != '"'
    ensures (forall i :: 0 <= i < |s| ==> s[i] !in "&\"<>") ==> HtmlSpecialChars(s) == s
  {
    if s != [] {
      EscapedHasNoMarkup(s[1..]);
    }
  }

  /** `split` on a one-character pattern: the pieces of `s` between occurrences of `c`. */
  function Split(s: string, c: char): (parts: seq<string>)
    ensures |parts| >= 1
    ensures forall i :: 0 <= i < |parts| ==> c !in parts[i]
  {
    if s == [] then [""]
    else
      var rest := Split(s[1..], c);
      if s[0] == c then [""] + rest else [[s[0]] + rest[0]] + rest[1..]
  }

  /** `implode`. */
  function Join(xs: seq<string>, sep: string): string {
    if xs == [] then "" else if |xs| == 1 then xs[0] else xs[0] + sep + Join(xs[1..], sep)
  }

  /** Joining the pieces of a split with the separator gives back the string. */
  lemma {:induction false} JoinSplit(s: string, c: char)
    ensures Join(Split(s, c), [c]) == s
  {
    if s != [] {
      var rest := Split(s[1..], c);
      JoinSplit(s[1..], c);
      if s[0] != c {
        var parts := [[s[0]] + rest[0]] + rest[1..];
        assert parts[1..] == rest[1..];
        if |rest| > 1 {
          assert Join(rest, [c]) == rest[0] + [c] + Join(rest[1..], [c]);
        }
      }
    }
  }

  /** Splitting a join of pieces that do not contain the separator gives back the pieces. */
  lemma {:induction false} SplitJoin(xs: seq<string>, c: char)
    requires |xs| >= 1
    requires forall i :: 0 <= i < |xs| ==> c !in xs[i]
    ensures Split(Join(xs, [c]), c) == xs
  {
    if |xs| == 1 {
      SplitPiece(xs[0], c);
    } else {
      SplitJoin(xs[1..], c);
      SplitAround(xs[0], Join(xs[1..], [c]), c);
      assert xs == [xs[0]] + xs[1..];
    }
  }

  /** A string without the separator splits into itself. */
  lemma {:induction false} SplitPiece(s: string, c: char)
    requires c !in s
    ensures Split(s, c) == [s]
  {
    if s != [] {
      SplitPiece(s[1..], c);
      assert [s[0]] + s[1..] == s;
    }
  }

  /** Splitting `a + [c] + b`, where `a` has no separator, puts `a` first. */
  lemma {:induction false} SplitAround(a: string, b: string, c: char)
    requires c !in a
    ensures Split(a + [c] + b, c) == [a] + Split(b, c)
  {
    if a == [] {
      assert ([c] + b)[1..] == b;
    } else {
      SplitAround(a[1..], b, c);
      assert (a + [c] + b)[1..] == a[1..] + [c] + b;
      assert [a[0]] + a[1..] == a;
    }
  }
}
