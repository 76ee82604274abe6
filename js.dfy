/**
 * The slice of JavaScript semantics that the handlers, models and query
 * builders rely on: dynamically typed values, truthiness, the `||` and `&&`
 * operators, property access on plain objects, `parseInt` and the
 * whitespace set used by `String.prototype.trim` and the regular-expression
 * class `\s`.
 */
module Js {

  datatype Option<+T> = None | Some(value: T)

  datatype Result<+T, +E> = Ok(value: T) | Err(error: E)

  /** A JavaScript value. Numbers are reals: NaN and the infinities are not modelled. */
  datatype Value =
    | Undefined
    | Null
    | Bool(b: bool)
    | Num(n: real)
    | Str(s: string)
    | Arr(items: seq<Value>)
    | Obj(fields: map<string, Value>)

  /** A plain object (request query, body, params, a database row). */
  type Props = map<string, Value>

  /** ToBoolean: the values an `if`, `?:`, `||` or `&&` treats as true. */
  predicate Truthy(v: Value)
  {
    match v
    case Undefined => false
    case Null => false
    case Bool(b) => b
    case Num(n) => n != 0.0
    case Str(s) => s != ""
    case Arr(_) => true
    case Obj(_) => true
  }

  /** `a || b` */
  function Or(a: Value, b: Value): Value
  {
    if Truthy(a) then a else b
  }

  /** `a && b` */
  function And(a: Value, b: Value): Value
  {
    if Truthy(a) then b else a
  }

  /** `o.k` on a plain object: a missing key reads as `undefined`. */
  function Get(o: Props, k: string): Value
  {
    if k in o then o[k] else Undefined
  }

  /** `o.k` on an arbitrary value: reading a property of `undefined` or `null` throws a TypeError. */
  function Prop(v: Value, k: string): Option<Value>
  {
    match v
    case Undefined => None
    case Null => None
    case Obj(fields) => Some(Get(fields, k))
    case _ => Some(Undefined)
  }

  /** Strict equality `===` on the primitive values that database rows carry; two objects are taken to be distinct. */
  predicate StrictEq(a: Value, b: Value)
  {
    match a
    case Arr(_) => false
    case Obj(_) => false
    case _ => a == b
  }

  /** `typeof v === 'string'` and friends. */
  predicate IsString(v: Value) { v.Str? }
  predicate IsNumber(v: Value) { v.Num? }
  predicate IsBoolean(v: Value) { v.Bool? }

  // ---------------------------------------------------------------------
  // Whitespace, as in the WhiteSpace and LineTerminator productions of
  // ECMAScript (the set `trim` removes and `\s` matches).

  predicate IsSpace(c: char)
  {
    var n := c as int;
    n == 0x09 || n == 0x0A || n == 0x0B || n == 0x0C || n == 0x0D || n == 0x20 ||
    n == 0xA0 || n == 0x1680 || (0x2000 <= n <= 0x200A) || n == 0x2028 || n == 0x2029 ||
    n == 0x202F || n == 0x205F || n == 0x3000 || n == 0xFEFF
  }

  function TrimStart(s: string): (r: string)
    ensures |r| <= |s|
    ensures r == s[|s| - |r|..]
    ensures r != [] ==> !IsSpace(r[0])
    ensures forall i :: 0 <= i < |s| - |r| ==> IsSpace(s[i])
  {
    if s != [] && IsSpace(s[0]) then TrimStart(s[1..]) else s
  }

  function TrimEnd(s: string): (r: string)
    ensures |r| <= |s|
    ensures r == s[..|r|]
    ensures r != [] ==> !IsSpace(r[|r| - 1])
    ensures forall i :: |r| <= i < |s| ==> IsSpace(s[i])
  {
    if s != [] && IsSpace(s[|s| - 1]) then TrimEnd(s[..|s| - 1]) else s
  }

  /** `s.trim()` */
  function Trim(s: string): string
  {
    TrimEnd(TrimStart(s))
  }

  /** What is left after trimming is empty exactly when every character is whitespace. */
  lemma TrimEmptyIff(s: string)
    ensures Trim(s) == [] <==> forall i :: 0 <= i < |s| ==> IsSpace(s[i])
  {
    var t := TrimStart(s);
    if Trim(s) == [] {
      forall i | 0 <= i < |s| ensures IsSpace(s[i]) {
        if i >= |s| - |t| {
          assert s[i] == t[i - (|s| - |t|)];
        }
      }
    } else {
      var r := Trim(s);
      assert !IsSpace(r[0]);
      assert r[0] == t[0];
      assert t[0] == s[|s| - |t|];
    }
  }

  // ---------------------------------------------------------------------
  // Strings

  predicate StartsWith(s: string, p: string)
  {
    |p| <= |s| && s[..|p|] == p
  }

  /** `p` occurs in `s` starting at position `i`. */
  predicate OccursAt(s: string, p: string, i: int)
  {
    0 <= i <= |s| - |p| && s[i..i + |p|] == p
  }

  /** `s.includes(p)`: `p` occurs in `s` at some position. */
  predicate Contains(s: string, p: string)
  {
    exists i | 0 <= i <= |s| - |p| :: OccursAt(s, p, i)
  }

  /** Position of the first occurrence of `p` in `s` at or after `from`. */
  function IndexOf(s: string, p: string, from: nat): (r: Option<nat>)
    decreases |s| - from
    ensures r.Some? ==> from <= r.value && OccursAt(s, p, r.value)
    ensures r.Some? ==> forall j :: from <= j < r.value ==> !OccursAt(s, p, j)
    ensures r.None? ==> forall j :: from <= j ==> !OccursAt(s, p, j)
  {
    if from + |p| > |s| then None
    else if s[from..from + |p|] == p then Some(from)
    else IndexOf(s, p, from + 1)
  }

  /** `s.replace(p, w)` with a string pattern: only the first occurrence is replaced. */
  function ReplaceFirst(s: string, p: string, w: string): string
  {
    match IndexOf(s, p, 0)
    case None => s
    case Some(i) => s[..i] + w + s[i + |p|..]
  }

  lemma ReplaceFirstAtStart(p: string, rest: string, w: string)
    ensures ReplaceFirst(p + rest, p, w) == w + rest
  {
    var s := p + rest;
    assert OccursAt(s, p, 0);
    assert IndexOf(s, p, 0) == Some(0);
    assert s[|p|..] == rest;
  }

  lemma ReplaceFirstAbsent(s: string, p: string, w: string)
    requires !Contains(s, p)
    ensures ReplaceFirst(s, p, w) == s
  {
  }

  /** `toLowerCase` on one character: the ASCII capitals map to their small letters, every other character is kept. */
  function LowerChar(c: char): (r: char)
    ensures 'A' <= c <= 'Z' ==> 'a' <= r <= 'z' && r as int == c as int + 32
    ensures !('A' <= c <= 'Z') ==> r == c
  {
    if 'A' <= c <= 'Z' then (c as int + 32) as char else c
  }

  /** `s.toLowerCase()`, ASCII only. */
  function ToLower(s: string): (r: string)
    ensures |r| == |s| && forall i | 0 <= i < |s| :: r[i] == LowerChar(s[i])
  {
    seq(|s|, i requires 0 <= i < |s| => LowerChar(s[i]))
  }

  /** `s.lastIndexOf(c)` for one character, as an option. */
  function LastIndex(s: string, c: char): (r: Option<nat>)
    ensures r.Some? ==> r.value < |s| && s[r.value] == c && forall j | r.value < j < |s| :: s[j] != c
    ensures r.None? ==> c !in s
  {
    if s == [] then None
    else if s[|s| - 1] == c then Some(|s| - 1)
    else LastIndex(s[..|s| - 1], c)
  }

  /** `s.split(sep)` for a one-character separator. */
  function Split(s: string, sep: char): (r: seq<string>)
    ensures |r| >= 1
    ensures forall k :: 0 <= k < |r| ==> sep !in r[k]
    decreases |s|
  {
    if s == [] then [""]
    else
      var rest := Split(s[1..], sep);
      if s[0] == sep then [""] + rest
      else [[s[0]] + rest[0]] + rest[1..]
  }

  /** `parts.join(sep)` */
  function Join(parts: seq<string>, sep: char): string
  {
    if parts == [] then ""
    else if |parts| == 1 then parts[0]
    else parts[0] + [sep] + Join(parts[1..], sep)
  }

  /** Splitting at `sep` and joining again gives back the original text. */
  lemma {:induction false} JoinSplit(s: string, sep: char)
    ensures Join(Split(s, sep), sep) == s
    decreases |s|
  {
    if s != [] {
      var rest := Split(s[1..], sep);
      JoinSplit(s[1..], sep);
      if s[0] == sep {
        assert Split(s, sep) == [""] + rest;
        assert ([""] + rest)[1..] == rest;
        assert s == [sep] + s[1..];
      } else {
        var r := [[s[0]] + rest[0]] + rest[1..];
        assert Split(s, sep) == r;
        if |rest| == 1 {
          assert s == [s[0]] + s[1..];
        } else {
          assert r[1..] == rest[1..];
          assert Join(rest, sep) == rest[0] + [sep] + Join(rest[1..], sep);
          assert s == [s[0]] + s[1..];
        }
      }
    }
  }

  /** Text without the separator is one piece. */
  lemma {:induction false} SplitNoSep(s: string, sep: char)
    requires sep !in s
    ensures Split(s, sep) == [s]
    decreases |s|
  {
    if s != [] {
      SplitNoSep(s[1..], sep);
      assert s == [s[0]] + s[1..];
    }
  }

  /** `split` on a text that opens with the separator starts with an empty piece. */
  lemma SplitConsSep(t: string, sep: char)
    ensures Split([sep] + t, sep) == [""] + Split(t, sep)
  {
    var s := [sep] + t;
    assert s[0] == sep && s[1..] == t;
  }

  /** Any other first character joins the first piece of the rest. */
  lemma SplitConsOther(c: char, t: string, sep: char)
    requires c != sep
    ensures Split([c] + t, sep) == [[c] + Split(t, sep)[0]] + Split(t, sep)[1..]
  {
    var s := [c] + t;
    assert s[0] == c && s[1..] == t;
  }

  /** Extending the first of a non-empty list of pieces commutes with appending more pieces. */
  lemma PrependToFirst(c: char, xs: seq<string>, ys: seq<string>)
    requires xs != []
    ensures [[c] + (xs + ys)[0]] + (xs + ys)[1..] == ([[c] + xs[0]] + xs[1..]) + ys
  {
    assert (xs + ys)[0] == xs[0];
    assert (xs + ys)[1..] == xs[1..] + ys;
  }

  /** Splitting two texts joined by the separator gives the pieces of each, in order. */
  lemma {:induction false} SplitConcat(a: string, b: string, sep: char)
    ensures Split(a + [sep] + b, sep) == Split(a, sep) + Split(b, sep)
    decreases |a|
  {
    if a == [] {
      assert a + [sep] + b == [sep] + b;
      SplitConsSep(b, sep);
    } else {
      var c, t := a[0], a[1..];
      assert a == [c] + t;
      assert a + [sep] + b == [c] + (t + [sep] + b);
      SplitConcat(t, b, sep);
      if c == sep {
        SplitConsSep(t + [sep] + b, sep);
        SplitConsSep(t, sep);
        assert [""] + (Split(t, sep) + Split(b, sep)) == ([""] + Split(t, sep)) + Split(b, sep);
      } else {
        SplitConsOther(c, t + [sep] + b, sep);
        SplitConsOther(c, t, sep);
        PrependToFirst(c, Split(t, sep), Split(b, sep));
      }
    }
  }

  /** Joining two non-empty lists of pieces puts one separator between them. */
  lemma {:induction false} JoinConcat(xs: seq<string>, ys: seq<string>, sep: char)
    requires xs != [] && ys != []
    ensures Join(xs + ys, sep) == Join(xs, sep) + [sep] + Join(ys, sep)
    decreases |xs|
  {
    if |xs| == 1 {
      assert (xs + ys)[1..] == ys;
    } else {
      assert (xs + ys)[1..] == xs[1..] + ys;
      JoinConcat(xs[1..], ys, sep);
    }
  }

  /** Joining pieces that hold no separator and splitting again gives the pieces back. */
  lemma {:induction false} SplitJoin(parts: seq<string>, sep: char)
    requires parts != []
    requires forall i | 0 <= i < |parts| :: sep !in parts[i]
    ensures Split(Join(parts, sep), sep) == parts
    decreases |parts|
  {
    if |parts| == 1 {
      SplitNoSep(parts[0], sep);
    } else {
      SplitJoin(parts[1..], sep);
      SplitNoSep(parts[0], sep);
      SplitConcat(parts[0], Join(parts[1..], sep), sep);
      assert parts == [parts[0]] + parts[1..];
    }
  }

  // ---------------------------------------------------------------------
  // parseInt(s, 10)

  predicate IsDigit(c: char) { '0' <= c <= '9' }

  /** The longest prefix of decimal digits. */
  function DigitPrefix(s: string): (d: string)
    ensures |d| <= |s| && d == s[..|d|]
    ensures forall i :: 0 <= i < |d| ==> IsDigit(d[i])
    ensures |d| < |s| ==> !IsDigit(s[|d|])
  {
    if s != [] && IsDigit(s[0]) then [s[0]] + DigitPrefix(s[1..]) else []
  }

  function DigitValue(c: char): nat
    requires IsDigit(c)
  {
    c as int - '0' as int
  }

  function DigitsValue(d: string): nat
    requires forall i :: 0 <= i < |d| ==> IsDigit(d[i])
  {
    if d == [] then 0 else DigitsValue(d[..|d| - 1]) * 10 + DigitValue(d[|d| - 1])
  }

  /**
   * `parseInt(s, 10)`: skip leading whitespace, read an optional sign and the
   * longest run of digits; without a digit the result is NaN (None here).
   */
  function ParseInt(s: string): Option<int>
  {
    ParseTrimmed(TrimStart(s))
  }

  /** `parseInt` after the leading whitespace: an optional sign and the longest run of digits. */
  function ParseTrimmed(t: string): Option<int>
  {
    var signed := t != [] && (t[0] == '-' || t[0] == '+');
    var body := if signed then t[1..] else t;
    var d := DigitPrefix(body);
    var magnitude: int := DigitsValue(d);
    if d == [] then None
    else if signed && t[0] == '-' then Some(-magnitude)
    else Some(magnitude)
  }

  /**
   * `parseInt(v, 10)` on a value: other values are converted to text first.
   * A number keeps its integer part; an array becomes its items' texts
   * joined by commas, and the comma ends the digits, so its first item
   * decides; `undefined`, `null`, booleans and objects give NaN.
   */
  function ParseIntValue(v: Value): Option<int>
  {
    match v
    case Str(s) => ParseInt(s)
    case Num(n) => Some(if n >= 0.0 then n.Floor else -((-n).Floor))
    case Arr(items) => if items == [] then None else ParseIntValue(items[0])
    case _ => None
  }

  /** The strings of a sequence of string values. */
  function Texts(items: seq<Value>): (r: seq<string>)
    requires forall i | 0 <= i < |items| :: items[i].Str?
    ensures |r| == |items| && forall i | 0 <= i < |items| :: r[i] == items[i].s
  {
    seq(|items|, i requires 0 <= i < |items| => items[i].s)
  }

  /** Text that starts with a non-blank is kept whole by `trimStart`, after whatever the text before it trims to. */
  lemma {:induction false} TrimStartAppend(s: string, tail: string)
    requires tail != [] && !IsSpace(tail[0])
    ensures TrimStart(s + tail) == TrimStart(s) + tail
    decreases |s|
  {
    if s == [] {
      assert s + tail == tail && [] + tail == tail;
    } else {
      assert (s + tail)[0] == s[0];
      if IsSpace(s[0]) {
        assert (s + tail)[1..] == s[1..] + tail;
        TrimStartAppend(s[1..], tail);
      }
    }
  }

  /** A non-digit ends the run of digits, whatever follows it. */
  lemma {:induction false} DigitPrefixStops(s: string, tail: string)
    requires tail != [] && !IsDigit(tail[0])
    ensures DigitPrefix(s + tail) == DigitPrefix(s)
    decreases |s|
  {
    if s == [] {
      assert s + tail == tail;
    } else {
      assert (s + tail)[0] == s[0] && (s + tail)[1..] == s[1..] + tail;
      if IsDigit(s[0]) {
        DigitPrefixStops(s[1..], tail);
      }
    }
  }

  /** After the whitespace, a character that is neither a digit nor a sign ends what `parseInt` reads. */
  lemma ParseTrimmedStops(t: string, tail: string)
    requires tail != [] && !IsDigit(tail[0]) && tail[0] != '-' && tail[0] != '+'
    ensures ParseTrimmed(t + tail) == ParseTrimmed(t)
  {
    if t == [] {
      assert t + tail == tail;
      DigitPrefixStops([], tail);
      assert [] + tail == tail;
    } else {
      assert (t + tail)[0] == t[0];
      if t[0] == '-' || t[0] == '+' {
        assert (t + tail)[1..] == t[1..] + tail;
        DigitPrefixStops(t[1..], tail);
      } else {
        DigitPrefixStops(t, tail);
      }
    }
  }

  /** `parseInt` reads nothing past a comma: `parseInt(s + "," + rest)` is `parseInt(s)`. */
  lemma ParseIntStopsAtComma(s: string, rest: string)
    ensures ParseInt(s + "," + rest) == ParseInt(s)
  {
    var tail := "," + rest;
    assert s + "," + rest == s + tail;
    assert tail[0] == ',' && !IsSpace(',');
    TrimStartAppend(s, tail);
    ParseTrimmedStops(TrimStart(s), tail);
  }

  /** On an array of strings, `parseInt` parses the comma-joined text that `String(array)` gives. */
  lemma {:induction false} ParseIntOfStrings(items: seq<Value>)
    requires forall i | 0 <= i < |items| :: items[i].Str?
    ensures ParseIntValue(Arr(items)) == ParseInt(Join(Texts(items), ','))
  {
    var texts := Texts(items);
    if items == [] {
      ParseIntEmpty();
    } else if |items| == 1 {
      ArrayHeadDecides(items);
    } else {
      ArrayHeadDecides(items);
      JoinHead(texts, ',');
      ParseIntStopsAtComma(texts[0], Join(texts[1..], ','));
    }
  }

  /** The empty text holds no digits. */
  lemma ParseIntEmpty()
    ensures ParseInt("") == None
  {
    assert TrimStart("") == "";
    assert DigitPrefix("") == "";
  }

  /** A non-empty array of texts converts as its first item does. */
  lemma ArrayHeadDecides(items: seq<Value>)
    requires items != [] && items[0].Str?
    ensures ParseIntValue(Arr(items)) == ParseInt(items[0].s)
  {
  }

  /** Two or more pieces join as the first, the separator, and the rest joined. */
  lemma JoinHead(parts: seq<string>, sep: char)
    requires |parts| > 1
    ensures Join(parts, sep) == parts[0] + [sep] + Join(parts[1..], sep)
  {
  }


  /** A number as a JS value. */
  function IntValue(i: Option<int>): Value
  {
    match i
    case None => Undefined
    case Some(n) => Num(n as real)
  }

  /** A run of digits followed by anything that is not a digit parses to the digits' value. */
  lemma ParseIntDigits(d: string, rest: string)
    requires d != [] && forall i :: 0 <= i < |d| ==> IsDigit(d[i])
    requires rest == [] || !IsDigit(rest[0])
    ensures ParseInt(d + rest) == Some(DigitsValue(d))
  {
    var s := d + rest;
    assert s[0] == d[0];
    assert IsDigit(s[0]);
    assert !IsSpace(s[0]);
    assert TrimStart(s) == s;
    assert !(s[0] == '-' || s[0] == '+');
    DigitPrefixOf(d, rest);
  }

  lemma {:induction false} DigitPrefixOf(d: string, rest: string)
    requires forall i :: 0 <= i < |d| ==> IsDigit(d[i])
    requires rest == [] || !IsDigit(rest[0])
    ensures DigitPrefix(d + rest) == d
  {
    if d != [] {
      assert (d + rest)[1..] == d[1..] + rest;
      DigitPrefixOf(d[1..], rest);
      assert d == [d[0]] + d[1..];
    } else {
      assert d + rest == rest;
    }
  }
}
