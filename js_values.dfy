/** JavaScript values as the dashboard's pages see them (a decoded JSON
    response, a row record, a field of a row) and the few JavaScript
    operators the list logic relies on: truthiness, `||`, property access,
    `String(x)` / template interpolation, ASCII case folding, `trim()`
    emptiness and `String.prototype.includes`. */
module JsValues {

  datatype Option<T> = None | Some(value: T)

  /** The outcome of an HTTP call made through axios: the resolved value,
      a rejection that carries `err.response.data`, or a rejection without
      `err.response` (a network failure, or a TypeError thrown inside the
      same `try`). */
  datatype Outcome<T> = Success(value: T) | ServerError(data: Value) | NetworkError

  /** A JavaScript value. Numbers are integers (no floating point). */
  datatype Value =
    | Undefined
    | Null
    | Bool(b: bool)
    | Num(n: int)
    | Str(s: string)
    | Arr(items: seq<Value>)
    | Obj(fields: map<string, Value>)

  /** A record with named fields, as an element of a table's `data`. */
  type Row = map<string, Value>

  /** JavaScript truthiness. */
  predicate Truthy(v: Value)
  {
    match v
    case Undefined => false
    case Null => false
    case Bool(b) => b
    case Num(n) => n != 0
    case Str(s) => s != ""
    case Arr(_) => true
    case Obj(_) => true
  }

  /** `a || b`: the left operand when it is truthy, otherwise the right one. */
  function Or(a: Value, b: Value): (r: Value)
    ensures Truthy(a) ==> r == a
    ensures !Truthy(a) ==> r == b
    ensures Truthy(r) <==> Truthy(a) || Truthy(b)
  {
    if Truthy(a) then a else b
  }

  /** `v?.key` for a non-index key: the field of an object, `undefined`
      for anything else (a missing field, a primitive, null). */
  function Get(v: Value, key: string): (r: Value)
    ensures v.Obj? && key in v.fields ==> r == v.fields[key]
    ensures !(v.Obj? && key in v.fields) ==> r == Undefined
  {
    match v
    case Obj(m) => if key in m then m[key] else Undefined
    case _ => Undefined
  }

  /** `row[key]` on a row record. */
  function Field(row: Row, key: string): Value
  {
    if key in row then row[key] else Undefined
  }

  // ---------------------------------------------------------------------
  // Characters and strings

  function LowerChar(c: char): char
  {
    if 'A' <= c <= 'Z' then (c as int + 32) as char else c
  }

  function UpperChar(c: char): char
  {
    if 'a' <= c <= 'z' then (c as int - 32) as char else c
  }

  /** `s.toLowerCase()`, folding ASCII letters only. */
  function Lower(s: string): (r: string)
    ensures |r| == |s|
    ensures forall i :: 0 <= i < |s| ==> r[i] == LowerChar(s[i])
  {
    seq(|s|, i requires 0 <= i < |s| => LowerChar(s[i]))
  }

  /** `s.toUpperCase()`, folding ASCII letters only. */
  function Upper(s: string): (r: string)
    ensures |r| == |s|
    ensures forall i :: 0 <= i < |s| ==> r[i] == UpperChar(s[i])
  {
    seq(|s|, i requires 0 <= i < |s| => UpperChar(s[i]))
  }

  lemma LowerIdempotent(s: string)
    ensures Lower(Lower(s)) == Lower(s)
  {
    assert forall i :: 0 <= i < |s| ==> LowerChar(LowerChar(s[i])) == LowerChar(s[i]);
  }

  /** Lower-casing an upper-cased string is lower-casing it directly. */
  lemma LowerOfUpper(s: string)
    ensures Lower(Upper(s)) == Lower(s)
  {
    assert forall i :: 0 <= i < |s| ==> LowerChar(UpperChar(s[i])) == LowerChar(s[i]);
  }

  /** The characters `String.prototype.trim` removes: the white space
      characters (tab, vertical tab, form feed, the byte-order mark and the
      space separators of Unicode category Zs) and the line terminators. */
  predicate IsWhitespace(c: char)
  {
    || c == '\t' || c == '\U{000B}' || c == '\U{000C}' || c == '\U{FEFF}'
    || c == ' ' || c == '\U{00A0}' || c == '\U{1680}' || '\U{2000}' <= c <= '\U{200A}'
    || c == '\U{202F}' || c == '\U{205F}' || c == '\U{3000}'
    || c == '\n' || c == '\r' || c == '\U{2028}' || c == '\U{2029}'
  }

  /** `!s.trim()`: the string is empty once leading and trailing white
      space are removed, i.e. it holds nothing but white space. */
  predicate BlankAfterTrim(s: string)
  {
    forall i :: 0 <= i < |s| ==> IsWhitespace(s[i])
  }

  predicate OccursAt(hay: string, needle: string, i: nat)
  {
    i + |needle| <= |hay| && hay[i..i + |needle|] == needle
  }

  /** `hay.includes(needle)`. */
  predicate Contains(hay: string, needle: string)
  {
    exists i: nat :: i <= |hay| && OccursAt(hay, needle, i)
  }

  lemma ContainsEmpty(hay: string)
    ensures Contains(hay, "")
  {
    assert OccursAt(hay, "", 0);
  }

  /** A needle longer than the haystack never occurs in it. */
  lemma ContainsNotLonger(hay: string, needle: string)
    requires Contains(hay, needle)
    ensures |needle| <= |hay|
  {
  }

  /** The empty haystack contains only the empty needle. */
  lemma ContainsInEmpty(needle: string)
    ensures Contains("", needle) <==> needle == ""
  {
    if needle == "" {
      ContainsEmpty("");
    }
  }

  /** A non-empty needle that occurs in a string starts with a character
      of that string; so a string without that character does not
      contain it. */
  lemma ContainsFirstChar(hay: string, needle: string)
    requires needle != "" && Contains(hay, needle)
    ensures needle[0] in hay
  {
    var i: nat :| i <= |hay| && OccursAt(hay, needle, i);
    assert hay[i..i + |needle|][0] == hay[i];
  }

  // ---------------------------------------------------------------------
  // String conversion

  function DigitChar(d: nat): char
    requires d < 10
  {
    ('0' as int + d) as char
  }

  /** Decimal digits of a natural number, most significant first. */
  function NatToString(n: nat): (r: string)
    ensures |r| >= 1
    ensures forall i :: 0 <= i < |r| ==> '0' <= r[i] <= '9'
  {
    if n < 10 then [DigitChar(n)] else NatToString(n / 10) + [DigitChar(n % 10)]
  }

  /** Different numbers have different decimal forms. */
  lemma {:induction false} NatToStringInjective(a: nat, b: nat)
    requires NatToString(a) == NatToString(b)
    ensures a == b
  {
    if a >= 10 && b >= 10 {
      LastDigitSplit(a, b);
      NatToStringInjective(a / 10, b / 10);
    }
  }

  /** Equal decimal forms of two numbers of two digits or more have equal
      last digits and equal leading parts. */
  lemma LastDigitSplit(a: nat, b: nat)
    requires a >= 10 && b >= 10 && NatToString(a) == NatToString(b)
    ensures a % 10 == b % 10 && NatToString(a / 10) == NatToString(b / 10)
  {
    var pa, pb := NatToString(a / 10), NatToString(b / 10);
    var sa := NatToString(a);
    assert sa == pa + [DigitChar(a % 10)] && sa == pb + [DigitChar(b % 10)];
    assert pa == sa[..|sa| - 1] == pb;
  }

  /** `n.toString()` for an integer. */
  function IntToString(n: int): (r: string)
    ensures |r| >= 1
    ensures n >= 0 ==> r == NatToString(n)
    ensures n < 0 ==> r == "-" + NatToString(-n)
  {
    if n < 0 then "-" + NatToString(-n) else NatToString(n)
  }

  /** A number's decimal form has no letters, so case folding leaves it
      unchanged. */
  lemma IntToStringHasNoLetters(n: int)
    ensures Lower(IntToString(n)) == IntToString(n)
    ensures Upper(IntToString(n)) == IntToString(n)
  {
  }

  lemma MinusSignIffNegative(n: int)
    ensures IntToString(n)[0] == '-' <==> n < 0
  {
    if n >= 0 {
      assert '0' <= NatToString(n)[0] <= '9';
    }
  }

  /** Different integers have different decimal forms: only negative
      numbers start with a minus sign. */
  lemma IntToStringInjective(a: int, b: int)
    requires IntToString(a) == IntToString(b)
    ensures a == b
  {
    MinusSignIffNegative(a);
    MinusSignIffNegative(b);
    if a < 0 && b < 0 {
      assert NatToString(-a) == IntToString(a)[1..] == IntToString(b)[1..] == NatToString(-b);
      NatToStringInjective(-a, -b);
    } else if a >= 0 && b >= 0 {
      NatToStringInjective(a, b);
    }
  }

  function Join(parts: seq<string>, sep: string): (r: string)
    ensures parts == [] ==> r == ""
    ensures |parts| == 1 ==> r == parts[0]
  {
    if parts == [] then ""
    else if |parts| == 1 then parts[0]
    else parts[0] + sep + Join(parts[1..], sep)
  }

  /** `String(v)`, which is also what `${v}` in a template literal yields:
      arrays are joined with commas (null and undefined elements become
      empty), plain objects print as `[object Object]`. */
  function ToJsString(v: Value): (r: string)
    decreases v
  {
    match v
    case Undefined => "undefined"
    case Null => "null"
    case Bool(b) => if b then "true" else "false"
    case Num(n) => IntToString(n)
    case Str(s) => s
    case Arr(items) =>
      Join(seq(|items|, i requires 0 <= i < |items| =>
        if items[i].Undefined? || items[i].Null? then "" else ToJsString(items[i])), ",")
    case Obj(_) => "[object Object]"
  }

  /** A value that is not an array has a non-empty string form; only an
      array can print as nothing (`[]` and `[null]` both print as ""). */
  lemma ToJsStringNonEmpty(v: Value)
    requires !v.Arr?
    requires !v.Str? || v.s != ""
    ensures ToJsString(v) != ""
  {
  }
}
