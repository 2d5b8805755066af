/**
 * How `CreatePluginFromTemplate` turns a decoded JSON variable value into the
 * JavaScript literal text it writes into the template, and a reader for that
 * literal syntax that recovers what the text denotes.
 *
 * JSON numbers are decoded by Go as `float64`; this model keeps only whole
 * numbers of magnitude at most 2^53, which a `float64` holds exactly.
 */
module ApiRender {
  import opened Prelude
  import opened Text
  import opened Decimal
  import GoQuote

  const MaxWhole: int := 0x20_0000_0000_0000

  /** A whole number a `float64` represents exactly. */
  type Whole = n: int | -MaxWhole <= n <= MaxWhole

  /** A decoded JSON value as `encoding/json` hands it over in an `interface{}`; objects are not modelled. */
  datatype Json =
    | JNull
    | JBool(b: bool)
    | JNumber(n: Whole)
    | JString(s: string)
    | JArray(items: seq<Json>)

  function FormatBool(b: bool): (r: string)
    ensures r == "true" || r == "false"
  {
    if b then "true" else "false"
  }

  /** Drops the trailing zeros of a digit string, keeping at least one digit. */
  function TrimZeros(s: string): (r: string)
    requires |s| >= 1
    ensures 1 <= |r| <= |s| && r == s[..|r|]
    ensures |r| > 1 ==> r[|r| - 1] != '0'
    decreases |s|
  {
    if |s| > 1 && s[|s| - 1] == '0' then TrimZeros(s[..|s| - 1]) else s
  }

  /**
   * `%v` of a whole `float64`: the shortest digits, written plainly while the decimal
   * exponent is below 6, and otherwise as `d.ddde+XX` with at least two exponent digits.
   */
  function FormatFloatG(n: Whole): (r: string)
    ensures |r| >= 1
  {
    var sign := if n < 0 then "-" else "";
    var digits := NatDigits(if n < 0 then -n else n);
    var exp := |digits| - 1;
    if exp < 6 then sign + digits
    else
      var m := TrimZeros(digits);
      var mantissa := if |m| > 1 then [m[0]] + "." + m[1..] else [m[0]];
      sign + mantissa + "e+" + (if exp < 10 then "0" + NatDigits(exp) else NatDigits(exp))
  }

  /** `fmt.Sprintf("%v", v)`: nil is `<nil>`, strings are bare, arrays are space-separated in brackets. */
  function FormatV(v: Json): (r: string)
    decreases v
  {
    match v
    case JNull => "<nil>"
    case JBool(b) => FormatBool(b)
    case JNumber(n) => FormatFloatG(n)
    case JString(s) => s
    case JArray(items) =>
      "[" + Join(seq(|items|, i requires 0 <= i < |items| => FormatV(items[i])), " ") + "]"
  }

  /** The element kind of an array, chosen by the type of its first element. */
  datatype Mode = BoolMode | NumberMode | StringMode

  function ModeOf(first: Json): Mode {
    match first
    case JBool(_) => BoolMode
    case JNumber(_) => NumberMode
    case _ => StringMode
  }

  /** The text of one array element in the given mode; `None` for an element of the wrong type. */
  function ItemText(mode: Mode, item: Json): (r: Option<string>)
    ensures r.Some? ==> |r.value| >= 1
    ensures r.None? <==> (mode == BoolMode && !item.JBool?) || (mode == NumberMode && !item.JNumber?)
  {
    match mode
    case BoolMode => if item.JBool? then Some(FormatBool(item.b)) else None
    case NumberMode => if item.JNumber? then Some(Itoa(item.n)) else None
    case StringMode => Some(GoQuote.Quote(if item.JString? then item.s else FormatV(item)))
  }

  /** The 400 message for an element that does not fit its array's kind. */
  function MismatchMessage(mode: Mode, key: string): string {
    if mode == BoolMode then "Invalid boolean value in array for variable " + key
    else "Invalid number value in array for variable " + key
  }

  predicate AllFit(mode: Mode, items: seq<Json>) {
    forall i :: 0 <= i < |items| ==> ItemText(mode, items[i]).Some?
  }

  function Texts(mode: Mode, items: seq<Json>): (ts: seq<string>)
    requires AllFit(mode, items)
    ensures |ts| == |items|
  {
    seq(|items|, i requires 0 <= i < |items| => ItemText(mode, items[i]).value)
  }

  /** The rendering of the variable `key` with value `v`, or the 400 message. */
  function Render(key: string, v: Json): Result<string, string> {
    match v
    case JArray(items) =>
      if |items| == 0 then Ok("[]")
      else
        var mode := ModeOf(items[0]);
        if AllFit(mode, items) then Ok("[" + Join(Texts(mode, items), ", ") + "]")
        else Err(MismatchMessage(mode, key))
    case JBool(b) => Ok(FormatBool(b))
    case JString(s) => Ok(GoQuote.Quote(s))
    case JNumber(n) => Ok(Itoa(n))
    case JNull => Ok(FormatV(v))
  }

  /**
   * The rendering switch of the variable loop: an array fills an `items` slice by
   * index, one element at a time, and stops at the first element of the wrong type.
   */
  method RenderValue(key: string, v: Json) returns (r: Result<string, string>)
    ensures r == Render(key, v)
  {
    if v.JArray? {
      var elems := v.items;
      if |elems| > 0 {
        var mode := ModeOf(elems[0]);
        var items := new string[|elems|];
        var i := 0;
        while i < |elems|
          invariant 0 <= i <= |elems|
          invariant forall k :: 0 <= k < i ==> ItemText(mode, elems[k]).Some? && items[k] == ItemText(mode, elems[k]).value
        {
          var text := ItemText(mode, elems[i]);
          if text.None? {
            return Err(MismatchMessage(mode, key));
          }
          items[i] := text.value;
          i := i + 1;
        }
        assert items[..] == Texts(mode, elems);
        r := Ok("[" + Join(items[..], ", ") + "]");
      } else {
        r := Ok("[]");
      }
    } else if v.JBool? {
      r := Ok(FormatBool(v.b));
    } else if v.JString? {
      r := Ok(GoQuote.Quote(v.s));
    } else if v.JNumber? {
      r := Ok(Itoa(v.n));
    } else {
      r := Ok(FormatV(v));
    }
  }

  // ---------------------------------------------------------------------------
  // The literal syntax the rendering produces, read back.

  /** What a JavaScript literal denotes. */
  datatype Lit = LBool(b: bool) | LInt(n: int) | LStr(s: string) | LArray(items: seq<Lit>)

  predicate IsNumChar(c: char) {
    c == '-' || IsDigit(c)
  }

  /** The length of the leading run of sign and digit characters. */
  function NumSpan(t: string): (k: nat)
    ensures k <= |t|
    decreases |t|
  {
    if t != [] && IsNumChar(t[0]) then 1 + NumSpan(t[1..]) else 0
  }

  /** Reads a boolean, an integer or a double-quoted string at the start of `t`; gives what follows. */
  function ReadScalar(t: string): (r: Option<(Lit, string)>)
    ensures r.Some? ==> |r.value.1| < |t|
  {
    if HasPrefix(t, "true") then Some((LBool(true), t[4..]))
    else if HasPrefix(t, "false") then Some((LBool(false), t[5..]))
    else if t != [] && t[0] == '"' then
      match GoQuote.ReadQuoted(t)
      case None => None
      case Some((s, rest)) => if |rest| < |t| then Some((LStr(s), rest)) else None
    else
      var k := NumSpan(t);
      var p := Atoi(t[..k]);
      if k > 0 && p.err.None? then Some((LInt(p.value), t[k..])) else None
  }

  /** Reads `a, b, c]`: scalars separated by `, ` and closed by `]`, which ends the text. */
  function ReadItems(t: string): Option<seq<Lit>>
    decreases |t|
  {
    match ReadScalar(t)
    case None => None
    case Some((l, rest)) =>
      if rest == "]" then Some([l])
      else if HasPrefix(rest, ", ") then
        match ReadItems(rest[2..])
        case None => None
        case Some(ls) => Some([l] + ls)
      else None
  }

  /** Reads a whole literal: a scalar, `[]`, or a bracketed list of scalars. */
  function ReadLiteral(t: string): Option<Lit> {
    if HasPrefix(t, "[") then
      if t[1..] == "]" then Some(LArray([]))
      else match ReadItems(t[1..])
        case None => None
        case Some(ls) => Some(LArray(ls))
    else
      match ReadScalar(t)
      case Some((l, rest)) => if rest == [] then Some(l) else None
      case None => None
  }

  /** What an array element means in its array's mode. */
  function ItemMeaning(mode: Mode, item: Json): Lit
    requires ItemText(mode, item).Some?
  {
    match mode
    case BoolMode => LBool(item.b)
    case NumberMode => LInt(item.n)
    case StringMode => LStr(FormatV(item))
  }

  function Meanings(mode: Mode, items: seq<Json>): (ls: seq<Lit>)
    requires AllFit(mode, items)
    ensures |ls| == |items|
  {
    seq(|items|, i requires 0 <= i < |items| => ItemMeaning(mode, items[i]))
  }

  /**
   * What the rendered text of a value should denote in the plugin's code: the same
   * boolean, the same whole number, the same string; in a string-mode array, the
   * `%v` text of each element.
   */
  function Meaning(v: Json): Lit
    requires v.JArray? ==> |v.items| == 0 || AllFit(ModeOf(v.items[0]), v.items)
  {
    match v
    case JNull => LStr(FormatV(v))
    case JBool(b) => LBool(b)
    case JNumber(n) => LInt(n)
    case JString(s) => LStr(s)
    case JArray(items) => if |items| == 0 then LArray([]) else LArray(Meanings(ModeOf(items[0]), items))
  }

  /** A character that may follow a scalar inside or after a list. */
  predicate Closes(rest: string) {
    rest == [] || rest[0] == ',' || rest[0] == ']'
  }

  lemma {:induction false} NumSpanAppend(d: string, rest: string)
    requires forall i :: 0 <= i < |d| ==> IsNumChar(d[i])
    requires Closes(rest)
    ensures NumSpan(d + rest) == |d|
    decreases |d|
  {
    if d == [] {
      assert d + rest == rest;
    } else {
      assert (d + rest)[1..] == d[1..] + rest;
      NumSpanAppend(d[1..], rest);
    }
  }

  lemma ReadInt(n: Whole, rest: string)
    requires Closes(rest)
    ensures ReadScalar(Itoa(n) + rest) == Some((LInt(n), rest))
  {
    var d := Itoa(n);
    var t := d + rest;
    NumSpanAppend(d, rest);
    assert t[..|d|] == d && t[|d|..] == rest;
    AtoiItoa(n);
    assert t[0] == '-' || IsDigit(t[0]);
  }

  lemma ReadString(s: string, rest: string)
    ensures ReadScalar(GoQuote.Quote(s) + rest) == Some((LStr(s), rest))
  {
    GoQuote.QuoteRoundTrip(s, rest);
    GoQuote.QuoteShape(s);
    assert (GoQuote.Quote(s) + rest)[0] == '"';
  }

  /** Each element text reads back as its meaning, whatever closes it. */
  lemma ReadItem(mode: Mode, item: Json, rest: string)
    requires ItemText(mode, item).Some? && Closes(rest)
    ensures ReadScalar(ItemText(mode, item).value + rest) == Some((ItemMeaning(mode, item), rest))
  {
    var t := ItemText(mode, item).value + rest;
    match mode
    case BoolMode =>
      if item.b {
        assert t[..4] == "true" && t[4..] == rest;
      } else {
        assert t[..5] == "false" && t[5..] == rest;
        assert t[..4] != "true" by { assert t[0] == 'f'; }
      }
    case NumberMode => ReadInt(item.n, rest);
    case StringMode =>
      if item.JString? {
        ReadString(item.s, rest);
      } else {
        ReadString(FormatV(item), rest);
      }
  }

  /** The reader takes one scalar and its separator off the front of a list. */
  lemma ReadItemsCons(t: string, l: Lit, tail: string, ls: seq<Lit>)
    requires ReadScalar(t) == Some((l, ", " + tail))
    requires ReadItems(tail) == Some(ls)
    ensures ReadItems(t) == Some([l] + ls)
  {
    assert (", " + tail)[2..] == tail;
    assert ", " + tail != "]";
    assert HasPrefix(", " + tail, ", ");
  }

  lemma TextsTail(mode: Mode, items: seq<Json>)
    requires |items| >= 1 && AllFit(mode, items)
    ensures AllFit(mode, items[1..])
    ensures Texts(mode, items[1..]) == Texts(mode, items)[1..]
    ensures Meanings(mode, items) == [ItemMeaning(mode, items[0])] + Meanings(mode, items[1..])
  {
  }

  lemma JoinCons(ts: seq<string>, sep: string, close: string)
    requires |ts| >= 2
    ensures Join(ts, sep) + close == ts[0] + (sep + (Join(ts[1..], sep) + close))
  {
  }

  lemma {:induction false} ReadJoined(mode: Mode, items: seq<Json>)
    requires |items| >= 1 && AllFit(mode, items)
    ensures ReadItems(Join(Texts(mode, items), ", ") + "]") == Some(Meanings(mode, items))
    decreases |items|
  {
    var ts := Texts(mode, items);
    TextsTail(mode, items);
    if |items| == 1 {
      ReadItem(mode, items[0], "]");
      assert Join(ts, ", ") == ts[0];
      assert Meanings(mode, items[1..]) == [];
      assert [ItemMeaning(mode, items[0])] + [] == [ItemMeaning(mode, items[0])];
    } else {
      var tail := Join(ts[1..], ", ") + "]";
      JoinCons(ts, ", ", "]");
      ReadItem(mode, items[0], ", " + tail);
      ReadJoined(mode, items[1..]);
      ReadItemsCons(ts[0] + (", " + tail), ItemMeaning(mode, items[0]), tail, Meanings(mode, items[1..]));
    }
  }

  lemma JoinHead(ts: seq<string>, sep: string)
    requires |ts| >= 1 && |ts[0]| >= 1
    ensures |Join(ts, sep)| >= 1 && Join(ts, sep)[0] == ts[0][0]
  {
  }

  /** A scalar that fills the whole text is a whole literal. */
  lemma ReadWholeScalar(t: string, l: Lit)
    requires t != [] && t[0] != '['
    requires ReadScalar(t + []) == Some((l, []))
    ensures ReadLiteral(t) == Some(l)
  {
    assert t + [] == t;
  }

  lemma ReadList(mode: Mode, items: seq<Json>)
    requires |items| >= 1 && AllFit(mode, items)
    ensures ReadLiteral("[" + Join(Texts(mode, items), ", ") + "]") == Some(LArray(Meanings(mode, items)))
  {
    var ts := Texts(mode, items);
    var t := "[" + Join(ts, ", ") + "]";
    JoinHead(ts, ", ");
    assert t[1..] == Join(ts, ", ") + "]";
    ReadJoined(mode, items);
  }

  /**
   * Round trip: every rendering that succeeds, other than that of `null`, is a
   * literal that denotes the value's meaning.
   */
  lemma RenderRoundTrip(key: string, v: Json)
    requires Render(key, v).Ok? && !v.JNull?
    ensures v.JArray? ==> |v.items| == 0 || AllFit(ModeOf(v.items[0]), v.items)
    ensures ReadLiteral(Render(key, v).value) == Some(Meaning(v))
  {
    var t := Render(key, v).value;
    match v
    case JBool(b) =>
      ReadItem(BoolMode, v, []);
      ReadWholeScalar(t, LBool(b));
    case JNumber(n) =>
      ReadInt(n, []);
      ReadWholeScalar(t, LInt(n));
    case JString(s) =>
      ReadString(s, []);
      ReadWholeScalar(t, LStr(s));
    case JArray(items) =>
      if |items| > 0 {
        ReadList(ModeOf(items[0]), items);
      } else {
        assert t[1..] == "]";
      }
  }

  /**
   * A rendering fails exactly for a non-empty array led by a boolean or a number that
   * holds an element of another type, and the message then names the variable.
   */
  lemma RenderFails(key: string, v: Json)
    ensures Render(key, v).Err? <==>
      v.JArray? && |v.items| > 0 && ModeOf(v.items[0]) != StringMode &&
      exists i :: 0 <= i < |v.items| && ItemText(ModeOf(v.items[0]), v.items[i]).None?
    ensures Render(key, v).Err? ==> Contains(Render(key, v).error, key)
  {
    if Render(key, v).Err? {
      var mode := ModeOf(v.items[0]);
      var prefix := if mode == BoolMode then "Invalid boolean value in array for variable "
        else "Invalid number value in array for variable ";
      ContainsSelf(key);
      ContainsInMiddle(prefix, key, "", key);
      assert prefix + key + "" == MismatchMessage(mode, key);
    }
  }

  /** Whole numbers below a million print the same under `%v` as under `%d`. */
  lemma FormatFloatShort(n: Whole)
    requires -1000000 < n < 1000000
    ensures FormatV(JNumber(n)) == Itoa(n)
  {
    assert Pow10(6) == 1000000;
    DigitCount(if n < 0 then -n else n, 6);
  }

  /**
   * Exponent notation `[-]d[.ddd]e+XX`: the digits `m` with a point after the first
   * one (none when there is only one), then `e+` and the exponent's digits.
   */
  function SciText(neg: bool, m: string, exp: string): (r: string)
    requires |m| >= 1
    ensures Contains(r, "e+")
  {
    var sign := if neg then "-" else "";
    var mantissa := if |m| > 1 then [m[0]] + "." + m[1..] else [m[0]];
    ContainsSelf("e+");
    ContainsInMiddle(sign + mantissa, "e+", exp, "e+");
    sign + mantissa + "e+" + exp
  }

  /**
   * From a million on, `%v` writes exponent notation: the shortest digits `m` of the
   * magnitude, leading digit non-zero and no trailing zero, and an exponent of at
   * least two digits, such that `m[0].m[1..]` times ten to the exponent is the number.
   */
  lemma FormatFloatLong(n: Whole) returns (m: string, exp: string)
    requires n >= 1000000 || n <= -1000000
    ensures |m| >= 1 && AllDigits(m) && m[0] != '0' && (|m| > 1 ==> m[|m| - 1] != '0')
    ensures |exp| >= 2 && AllDigits(exp) && (|exp| > 2 ==> exp[0] != '0')
    ensures |m| - 1 <= DigitsValue(exp)
    ensures DigitsValue(m) * Pow10(DigitsValue(exp) - (|m| - 1)) == (if n < 0 then -n else n)
    ensures FormatV(JNumber(n)) == SciText(n < 0, m, exp)
  {
    var a := if n < 0 then -n else n;
    assert Pow10(6) == 1000000;
    DigitCount(a, 7);
    var digits := NatDigits(a);
    var e := |digits| - 1;
    m := TrimZeros(digits);
    exp := ExpText(e);
    TrimZerosValue(digits);
    NatDigitsValue(a);
    ExpTextValue(e);
    assert m[0] == digits[0];
    FormatFloatExp(n, digits, e);
  }

  /** The exponent digits `%v` writes: at least two. */
  function ExpText(e: nat): string {
    if e < 10 then "0" + NatDigits(e) else NatDigits(e)
  }

  lemma FormatFloatExp(n: Whole, digits: string, e: nat)
    requires digits == NatDigits(if n < 0 then -n else n) && e == |digits| - 1 && e >= 6
    ensures FormatV(JNumber(n)) == SciText(n < 0, TrimZeros(digits), ExpText(e))
  {
  }

  /** The exponent as `%v` writes it denotes the exponent. */
  lemma ExpTextValue(e: nat)
    requires e >= 6
    ensures |ExpText(e)| >= 2 && AllDigits(ExpText(e)) && (|ExpText(e)| > 2 ==> ExpText(e)[0] != '0')
    ensures DigitsValue(ExpText(e)) == e
  {
    var exp := ExpText(e);
    if e < 10 {
      assert NatDigits(e) == [DigitChar(e)];
      assert exp == ['0', DigitChar(e)];
      assert exp[..1] == ['0'] && exp[..1][..0] == [];
      assert DigitsValue(exp[..1]) == 0;
    } else {
      DigitCount(e, 2);
      NatDigitsValue(e);
    }
  }

  lemma ShiftOne(v: nat, p: nat)
    ensures v * p * 10 == v * (10 * p)
  {
  }

  /** Dropping `k` trailing zeros divides the value by 10^k. */
  lemma {:induction false} TrimZerosValue(s: string)
    requires |s| >= 1 && AllDigits(s)
    ensures AllDigits(TrimZeros(s))
    ensures DigitsValue(s) == DigitsValue(TrimZeros(s)) * Pow10(|s| - |TrimZeros(s)|)
    decreases |s|
  {
    var t := TrimZeros(s);
    assert forall i :: 0 <= i < |t| ==> t[i] == s[i];
    if |s| > 1 && s[|s| - 1] == '0' {
      var p := s[..|s| - 1];
      assert forall i :: 0 <= i < |p| ==> p[i] == s[i];
      TrimZerosValue(p);
      assert t == TrimZeros(p);
      var k := |p| - |t|;
      assert DigitsValue(s) == DigitsValue(p) * 10;
      assert Pow10(k + 1) == 10 * Pow10(k);
      ShiftOne(DigitsValue(t), Pow10(k));
    }
  }

  function Pow10(k: nat): (p: nat)
    ensures p >= 1
  {
    if k == 0 then 1 else 10 * Pow10(k - 1)
  }

  /** A number has at most `k` digits below 10^k, and at least `k` from 10^(k-1) on. */
  lemma {:induction false} DigitCount(m: nat, k: nat)
    requires k >= 1
    ensures m < Pow10(k) ==> |NatDigits(m)| <= k
    ensures m >= Pow10(k - 1) ==> |NatDigits(m)| >= k
    decreases k
  {
    if k > 1 {
      DigitCount(m / 10, k - 1);
      assert Pow10(k) == 10 * Pow10(k - 1);
      assert Pow10(k - 1) == 10 * Pow10(k - 2);
    }
  }

  // ---------------------------------------------------------------------------
  // No `$` comes out of a rendering unless a string put it there.

  /** No string anywhere in the value holds a `$`. */
  predicate NoDollar(v: Json) {
    match v
    case JString(s) => '$' !in s
    case JArray(items) => forall i :: 0 <= i < |items| ==> NoDollar(items[i])
    case _ => true
  }

  lemma {:induction false} EscapedNoDollar(s: string)
    requires '$' !in s
    ensures '$' !in GoQuote.Escaped(s)
    decreases |s|
  {
    if s != [] {
      assert s[0] in s;
      EscapedNoDollar(s[1..]);
    }
  }

  lemma QuoteNoDollar(s: string)
    requires '$' !in s
    ensures '$' !in GoQuote.Quote(s)
  {
    EscapedNoDollar(s);
  }

  lemma {:induction false} JoinNoDollar(items: seq<string>, sep: string)
    requires '$' !in sep && forall i :: 0 <= i < |items| ==> '$' !in items[i]
    ensures '$' !in Join(items, sep)
    decreases |items|
  {
    if |items| > 1 {
      JoinNoDollar(items[1..], sep);
    }
  }

  lemma DigitsNoDollar(s: string)
    requires AllDigits(s)
    ensures '$' !in s
  {
    forall k | 0 <= k < |s|
      ensures s[k] != '$'
    {
      assert IsDigit(s[k]);
    }
  }

  lemma ItoaNoDollar(n: int)
    ensures '$' !in Itoa(n)
  {
    DigitsNoDollar(NatDigits(if n < 0 then -n else n));
  }

  lemma FormatFloatNoDollar(n: Whole)
    ensures '$' !in FormatFloatG(n)
  {
    var digits := NatDigits(if n < 0 then -n else n);
    DigitsNoDollar(digits);
    var exp := |digits| - 1;
    if exp >= 6 {
      var m := TrimZeros(digits);
      assert forall k :: 0 <= k < |m| ==> m[k] == digits[k];
      DigitsNoDollar(m);
      DigitsNoDollar(m[1..]);
      DigitsNoDollar(NatDigits(exp));
    }
  }

  lemma {:induction false} FormatVNoDollar(v: Json)
    requires NoDollar(v)
    ensures '$' !in FormatV(v)
    decreases v
  {
    match v
    case JNull =>
    case JBool(b) =>
    case JNumber(n) => FormatFloatNoDollar(n);
    case JString(s) =>
    case JArray(items) =>
      var parts := seq(|items|, i requires 0 <= i < |items| => FormatV(items[i]));
      forall i | 0 <= i < |items|
        ensures '$' !in parts[i]
      {
        FormatVNoDollar(items[i]);
      }
      JoinNoDollar(parts, " ");
  }

  /** The text a value renders to holds a `$` only if one of the value's strings does. */
  lemma RenderNoDollar(key: string, v: Json)
    requires NoDollar(v) && Render(key, v).Ok?
    ensures '$' !in Render(key, v).value
  {
    match v
    case JNull => FormatVNoDollar(v);
    case JBool(b) =>
    case JNumber(n) => ItoaNoDollar(n);
    case JString(s) => QuoteNoDollar(s);
    case JArray(items) =>
      if |items| > 0 {
        var mode := ModeOf(items[0]);
        var ts := Texts(mode, items);
        forall i | 0 <= i < |items|
          ensures '$' !in ts[i]
        {
          var item := items[i];
          match mode
          case BoolMode =>
          case NumberMode => ItoaNoDollar(item.n);
          case StringMode =>
            if item.JString? {
              QuoteNoDollar(item.s);
            } else {
              FormatVNoDollar(item);
              QuoteNoDollar(FormatV(item));
            }
        }
        JoinNoDollar(ts, ", ");
      }
  }
}
