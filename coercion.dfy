/**
 * `injectValueByType` (injector.go:152-246): write a raw request value into
 * one destination field according to the field's kind, leaving the field
 * as it was whenever the value does not fit.
 */
module Coercion {
  import opened Options

  /**
   * `reflect.Kind` of a destination field. A `File` field has kind Struct
   * and a `[]File` field kind Slice, so they fall under those cases;
   * `Other` stands for every kind the switch has no case for.
   */
  datatype Kind = String | Int | Bool | Float32 | Float64 | Struct | Slice | Other

  /** One uploaded part of a multipart form, as the form's file table lists it. */
  datatype FilePart = FilePart(filename: string, size: nat)

  /**
   * The raw value fetched for a field: what the query, the decoded body,
   * the form's file table or the path parameters hold under its key.
   * `Nil` is Go's nil interface (an absent body key or a JSON null);
   * `Composite` a JSON object or array.
   */
  datatype Value = Nil | Str(s: string) | Num(x: real) | Boolean(b: bool) | Composite | Files(parts: seq<FilePart>)

  /** The content of one destination field. */
  datatype Slot = StrSlot(s: string) | IntSlot(n: int) | BoolSlot(b: bool) | Opaque

  /** Bounds of Go's 64-bit `int`. */
  const MinInt: int := -0x8000_0000_0000_0000
  const MaxInt: int := 0x7fff_ffff_ffff_ffff

  /** A slot holds a value of the field's kind. */
  predicate Fits(kind: Kind, slot: Slot)
  {
    match kind
    case String => slot.StrSlot?
    case Int => slot.IntSlot? && MinInt <= slot.n <= MaxInt
    case Bool => slot.BoolSlot?
    case _ => slot.Opaque?
  }

  predicate IsDigit(c: char)
  {
    '0' <= c <= '9'
  }

  predicate AllDigits(s: string)
  {
    forall i :: 0 <= i < |s| ==> IsDigit(s[i])
  }

  /** The number a run of decimal digits denotes. */
  function DigitsValue(s: string): nat
    requires AllDigits(s)
  {
    if s == [] then 0 else 10 * DigitsValue(s[..|s| - 1]) + (s[|s| - 1] as int - '0' as int)
  }

  /**
   * `strconv.Atoi` on a 64-bit platform: an optional sign and one or more
   * decimal digits, denoting a value within `int`'s range.
   */
  function Atoi(s: string): (r: Option<int>)
    ensures r.Some? ==> s != "" && MinInt <= r.value <= MaxInt
    // text parses exactly when it is a sign-optional digit run whose value fits, and to that value
    ensures r.Some? <==> s != "" && AllDigits(Unsigned(s)) && Unsigned(s) != "" && MinInt <= Signed(s) <= MaxInt
    ensures r.Some? ==> r.value == Signed(s)
  {
    if s == "" then None
    else
      var digits := if s[0] == '-' || s[0] == '+' then s[1..] else s;
      assert digits == Unsigned(s);
      if digits == "" || !AllDigits(digits) then None
      else
        var n: int := if s[0] == '-' then 0 - DigitsValue(digits) as int else DigitsValue(digits);
        assert n == Signed(s);
        if MinInt <= n <= MaxInt then Some(n) else None
  }

  /** The text after an optional leading sign. */
  function Unsigned(s: string): (r: string)
    ensures |r| <= |s| && r == s[|s| - |r|..]
  {
    if s != "" && (s[0] == '-' || s[0] == '+') then s[1..] else s
  }

  /** The value of a sign-optional digit run. */
  function Signed(s: string): int
    requires AllDigits(Unsigned(s))
  {
    if s != "" && s[0] == '-' then 0 - DigitsValue(Unsigned(s)) as int else DigitsValue(Unsigned(s))
  }

  /** `strconv.ParseBool`. */
  function ParseBool(s: string): (r: Option<bool>)
    ensures r == Some(true) <==> s in {"1", "t", "T", "TRUE", "true", "True"}
    ensures r == Some(false) <==> s in {"0", "f", "F", "FALSE", "false", "False"}
    ensures r.None? <==> s !in {"1", "t", "T", "TRUE", "true", "True", "0", "f", "F", "FALSE", "false", "False"}
  {
    if s in {"1", "t", "T", "TRUE", "true", "True"} then Some(true)
    else if s in {"0", "f", "F", "FALSE", "false", "False"} then Some(false)
    else None
  }

  /** `value, _ := val.(string)`: the string inside `val`, or "" for any other value. */
  function AsString(val: Value): string
  {
    if val.Str? then val.s else ""
  }

  /**
   * The field's new content after `injectValueByType(val, elem, kind)`;
   * `settable` is `elem.CanSet()`.
   */
  function Coerce(kind: Kind, val: Value, settable: bool, slot: Slot): (r: Slot)
    // only a string value reaching a settable string, int or bool field changes anything
    ensures r != slot ==> settable && val.Str? && kind in {String, Int, Bool}
    // a string field takes any string, the empty one included
    ensures settable && val.Str? && kind == String ==> r == StrSlot(val.s)
    // an int or bool field takes exactly the parsed value, or stays as it was
    ensures kind == Int && r != slot ==> r.IntSlot? && Atoi(AsString(val)) == Some(r.n)
    ensures settable && kind == Int && Atoi(AsString(val)).Some? ==> r == IntSlot(Atoi(AsString(val)).value)
    ensures kind == Bool && r != slot ==> r.BoolSlot? && ParseBool(AsString(val)) == Some(r.b)
    ensures settable && kind == Bool && ParseBool(AsString(val)).Some? ==> r == BoolSlot(ParseBool(AsString(val)).value)
    // the field keeps holding a value of its kind
    ensures Fits(kind, slot) ==> Fits(kind, r)
  {
    match kind
    case String =>
      if val.Str? && settable then StrSlot(val.s) else slot
    case Int =>
      var text := AsString(val);
      if text == "" then slot
      else (match Atoi(text)
            case Some(n) => if settable then IntSlot(n) else slot
            case None => slot)
    case Bool =>
      var text := AsString(val);
      if text == "" then slot
      else (match ParseBool(text)
            case Some(b) => if settable then BoolSlot(b) else slot
            case None => slot)
    case _ =>
      slot
  }

  /** `injectValueByType` writing field `i` of the destination in place. */
  method InjectValueByType(val: Value, elem: array<Slot>, i: nat, kind: Kind, settable: bool)
    requires i < elem.Length
    modifies elem
    ensures elem[..] == old(elem[..])[i := Coerce(kind, val, settable, old(elem[i]))]
  {
    match kind {
      case String =>
        if val.Str? && settable {
          elem[i] := StrSlot(val.s);
        }
      case Int =>
        var value := AsString(val);
        if value == "" {
          return;
        }
        var final := Atoi(value);
        if final.Some? && settable {
          elem[i] := IntSlot(final.value);
        }
      case Bool =>
        var value := AsString(val);
        if value == "" {
          return;
        }
        var boolean := ParseBool(value);
        if boolean.Some? && settable {
          elem[i] := BoolSlot(boolean.value);
        }
      case _ =>
    }
  }

  /** `strconv.Itoa` for a non-negative number: its decimal digits. */
  function FormatNat(n: nat): (r: string)
    ensures r != "" && AllDigits(r)
  {
    if n < 10 then [('0' as int + n) as char]
    else FormatNat(n / 10) + [('0' as int + n % 10) as char]
  }

  /** `strconv.Itoa`. */
  function Itoa(n: int): string
  {
    if n < 0 then "-" + FormatNat(-n) else FormatNat(n)
  }

  lemma {:induction false} FormatNatValue(n: nat)
    ensures DigitsValue(FormatNat(n)) == n
  {
    if n >= 10 {
      var s := FormatNat(n);
      assert s[..|s| - 1] == FormatNat(n / 10);
      FormatNatValue(n / 10);
    }
  }

  /** Every `int` read back from its decimal text is the same `int`. */
  lemma ItoaAtoi(n: int)
    requires MinInt <= n <= MaxInt
    ensures Atoi(Itoa(n)) == Some(n)
  {
    var m: nat := if n < 0 then -n else n;
    FormatNatValue(m);
    var s := Itoa(n);
    assert Unsigned(s) == FormatNat(m) by {
      if n < 0 {
        assert s[0] == '-' && s[1..] == FormatNat(-n);
      } else {
        assert IsDigit(s[0]);
      }
    }
    assert Signed(s) == n;
  }

  /** `strconv.FormatBool` read back by `ParseBool`. */
  lemma FormatBoolParseBool(b: bool)
    ensures ParseBool(if b then "true" else "false") == Some(b)
  {
  }
}
