/**
 * The handful of JavaScript value semantics the backend and the frontend lean on:
 * truthiness of optional request fields, `a ?? b`, `Number(x)` coercion of ids,
 * `String.prototype.trim`, `toLowerCase`, `split`/`join`, `includes`, and the
 * whitespace collapsing done with `replace(/\s+/g, " ")`.
 *
 * A request field that is absent (undefined or null) is `None`.
 */
module JsValues {

  datatype Option<+T> = None | Some(value: T)

  /** `!!x` for a string field: present and not the empty string. */
  predicate Truthy(x: Option<string>) {
    x.Some? && x.value != ""
  }

  /** `x || d` for a string field. */
  function OrElse(x: Option<string>, d: string): (r: string)
    ensures Truthy(x) ==> r == x.value
    ensures !Truthy(x) ==> r == d
  {
    if x.Some? && x.value != "" then x.value else d
  }

  /** `x || null` for a string field: the empty string becomes null too. */
  function OrNull(x: Option<string>): (r: Option<string>)
    ensures r.Some? <==> Truthy(x)
    ensures r.Some? ==> r == x
  {
    if x.Some? && x.value != "" then x else None
  }

  /** `a ?? b`: only null/undefined fall through, the empty string does not. */
  function Coalesce<T>(a: Option<T>, b: Option<T>): (r: Option<T>)
    ensures a.Some? ==> r == a
    ensures a.None? ==> r == b
  {
    if a.Some? then a else b
  }

  // ---------------------------------------------------------------------------
  // Whitespace, trim and collapse
  // ---------------------------------------------------------------------------

  /** ECMAScript WhiteSpace and LineTerminator code points: what `trim` strips and `\s` matches. */
  predicate IsSpace(c: char) {
    c == ' ' || c == '\t' || c == '\n' || c == '\r' || c == '\U{B}' || c == '\U{C}'
    || c == '\U{A0}' || c == '\U{1680}' || ('\U{2000}' <= c <= '\U{200A}')
    || c == '\U{2028}' || c == '\U{2029}' || c == '\U{202F}' || c == '\U{205F}'
    || c == '\U{3000}' || c == '\U{FEFF}'
  }

  predicate NoSpace(s: string) {
    forall i :: 0 <= i < |s| ==> !IsSpace(s[i])
  }

  /** `s.trimStart()`: the longest suffix of `s` that does not start with whitespace. */
  function TrimStart(s: string): (r: string)
    ensures |r| <= |s| && r == s[|s| - |r|..]
    ensures r == [] || !IsSpace(r[0])
    ensures forall i :: 0 <= i < |s| - |r| ==> IsSpace(s[i])
  {
    if s != [] && IsSpace(s[0]) then TrimStart(s[1..]) else s
  }

  /** `s.trimEnd()`: the longest prefix of `s` that does not end with whitespace. */
  function TrimEnd(s: string): (r: string)
    ensures |r| <= |s| && r == s[..|r|]
    ensures r == [] || !IsSpace(r[|r| - 1])
    ensures forall i :: |r| <= i < |s| ==> IsSpace(s[i])
  {
    if s != [] && IsSpace(s[|s| - 1]) then TrimEnd(s[..|s| - 1]) else s
  }

  /** `r` is `s` with only whitespace removed before index `a` and after `r`. */
  predicate TrimmedAt(s: string, r: string, a: int) {
    0 <= a <= |s| - |r| && r == s[a..a + |r|]
    && (forall i :: 0 <= i < a ==> IsSpace(s[i]))
    && (forall i :: a + |r| <= i < |s| ==> IsSpace(s[i]))
  }

  /** `s.trim()`. */
  function Trim(s: string): (r: string)
    ensures |r| <= |s|
    ensures r == [] || (!IsSpace(r[0]) && !IsSpace(r[|r| - 1]))
  {
    TrimEnd(TrimStart(s))
  }

  /** `trim` removes only whitespace, and only from the two ends. */
  lemma TrimSpec(s: string)
    ensures exists a :: TrimmedAt(s, Trim(s), a)
  {
    var t := TrimStart(s);
    var r := TrimEnd(t);
    TrimmedAtBoth(s, t, r);
    assert r == Trim(s);
  }

  /** A prefix of a suffix, each cut only at whitespace, is a trim of the whole. */
  lemma TrimmedAtBoth(s: string, t: string, r: string)
    requires |t| <= |s| && t == s[|s| - |t|..] && forall i :: 0 <= i < |s| - |t| ==> IsSpace(s[i])
    requires |r| <= |t| && r == t[..|r|] && forall i :: |r| <= i < |t| ==> IsSpace(t[i])
    ensures TrimmedAt(s, r, |s| - |t|)
  {
    var a := |s| - |t|;
    assert r == s[a..a + |r|];
    forall i | a + |r| <= i < |s| ensures IsSpace(s[i]) {
      assert s[i] == t[i - a];
    }
  }

  /** A string with no surrounding whitespace is its own trim. */
  lemma {:induction false} TrimOfTrimmed(s: string)
    requires s == [] || (!IsSpace(s[0]) && !IsSpace(s[|s| - 1]))
    ensures Trim(s) == s
  {
    assert TrimStart(s) == s;
    assert TrimEnd(s) == s;
  }

  /** Drops every whitespace character: the "words" of a string run together. */
  function Squeeze(s: string): (r: string)
    ensures NoSpace(r)
    ensures |r| <= |s|
  {
    if s == [] then []
    else if IsSpace(s[0]) then Squeeze(s[1..])
    else [s[0]] + Squeeze(s[1..])
  }

  lemma {:induction false} SqueezeTrimStart(s: string)
    ensures Squeeze(TrimStart(s)) == Squeeze(s)
  {
    if s != [] && IsSpace(s[0]) {
      SqueezeTrimStart(s[1..]);
    }
  }

  /** Whitespace appears only as single ' ' characters. */
  predicate SingleBlanks(r: string) {
    (forall i :: 0 <= i < |r| && IsSpace(r[i]) ==> r[i] == ' ')
    && (forall i :: 0 <= i < |r| - 1 && r[i] == ' ' ==> r[i + 1] != ' ')
  }

  lemma ConsSingleBlanks(c: char, t: string)
    requires SingleBlanks(t)
    requires IsSpace(c) ==> c == ' '
    requires c == ' ' ==> t == [] || t[0] != ' '
    ensures SingleBlanks([c] + t)
  {
    var r := [c] + t;
    forall i | 0 <= i < |r| - 1 && r[i] == ' ' ensures r[i + 1] != ' ' {
      if i > 0 { assert r[i] == t[i - 1] && r[i + 1] == t[i]; }
    }
  }

  /** `s.replace(/\s+/g, " ")`: every maximal run of whitespace becomes one space. */
  function Collapse(s: string): string
    decreases |s|
  {
    if s == [] then []
    else if IsSpace(s[0]) then
      var t := TrimStart(s);
      assert |t| < |s| by {
        assert 0 < |s| - |t| ==> IsSpace(s[0]);
        assert t == [] || !IsSpace(t[0]);
      }
      [' '] + Collapse(t)
    else
      [s[0]] + Collapse(s[1..])
  }

  lemma TrimStartShorter(s: string)
    requires s != [] && IsSpace(s[0])
    ensures |TrimStart(s)| < |s|
  {
    var t := TrimStart(s);
    assert 0 < |s| - |t| ==> IsSpace(s[0]);
    assert t == [] || !IsSpace(t[0]);
  }

  /** Collapsing never lengthens a string, and keeps it non-empty. */
  lemma {:induction false} CollapseLength(s: string)
    ensures |Collapse(s)| <= |s|
    ensures s != [] ==> Collapse(s) != []
    decreases |s|
  {
    if s != [] && IsSpace(s[0]) {
      TrimStartShorter(s);
      CollapseLength(TrimStart(s));
    } else if s != [] {
      CollapseLength(s[1..]);
    }
  }

  /** The first character of the collapsed string is a ' ' exactly when `s` starts with whitespace. */
  lemma CollapseFirst(s: string)
    requires s != []
    ensures Collapse(s) != [] && (IsSpace(s[0]) <==> Collapse(s)[0] == ' ')
  {
  }

  /** The collapsed string has no whitespace other than single ' ' characters. */
  lemma {:induction false} CollapseBlanks(s: string)
    ensures SingleBlanks(Collapse(s))
    decreases |s|
  {
    if s == [] {
    } else if IsSpace(s[0]) {
      var t := TrimStart(s);
      TrimStartShorter(s);
      CollapseBlanks(t);
      if t != [] { CollapseFirst(t); }
      ConsSingleBlanks(' ', Collapse(t));
    } else {
      CollapseBlanks(s[1..]);
      ConsSingleBlanks(s[0], Collapse(s[1..]));
    }
  }

  /** The collapsed string ends with a ' ' exactly when `s` ends with whitespace. */
  lemma {:induction false} CollapseLast(s: string)
    requires s != []
    ensures Collapse(s) != [] && (IsSpace(s[|s| - 1]) <==> Collapse(s)[|Collapse(s)| - 1] == ' ')
    decreases |s|
  {
    CollapseLength(s);
    var c := Collapse(s);
    if IsSpace(s[0]) {
      var t := TrimStart(s);
      TrimStartShorter(s);
      assert c == [' '] + Collapse(t);
      if t != [] {
        CollapseLast(t);
        assert t[|t| - 1] == s[|s| - 1];
      }
    } else if |s| > 1 {
      CollapseLast(s[1..]);
      assert c == [s[0]] + Collapse(s[1..]);
    } else {
      assert c == [s[0]];
    }
  }

  /** Collapsing keeps every non-whitespace character, in order. */
  lemma {:induction false} CollapseKeepsWords(s: string)
    ensures Squeeze(Collapse(s)) == Squeeze(s)
    decreases |s|
  {
    if s == [] {
    } else if IsSpace(s[0]) {
      var t := TrimStart(s);
      TrimStartShorter(s);
      CollapseKeepsWords(t);
      SqueezeTrimStart(s);
      assert Squeeze([' '] + Collapse(t)) == Squeeze(Collapse(t));
    } else {
      CollapseKeepsWords(s[1..]);
      assert Squeeze([s[0]] + Collapse(s[1..])) == [s[0]] + Squeeze(Collapse(s[1..]));
    }
  }

  // ---------------------------------------------------------------------------
  // toLowerCase (ASCII letters)
  // ---------------------------------------------------------------------------

  function LowerChar(c: char): (d: char)
    ensures IsSpace(d) <==> IsSpace(c)
  {
    if 'A' <= c <= 'Z' then (c as int + 32) as char else c
  }

  /** `s.toLowerCase()`, restricted to the letters A to Z. */
  function ToLower(s: string): (r: string)
    ensures |r| == |s|
    ensures forall i :: 0 <= i < |s| ==> r[i] == LowerChar(s[i])
  {
    if s == [] then [] else [LowerChar(s[0])] + ToLower(s[1..])
  }

  /** `String(x || "").trim().toLowerCase()`: how the auth service and the home page normalise an email. */
  function NormalizeEmail(x: Option<string>): (r: string)
    ensures |r| <= |OrElse(x, "")|
    ensures r == [] || (!IsSpace(r[0]) && !IsSpace(r[|r| - 1]))
  {
    ToLower(Trim(OrElse(x, "")))
  }

  /** Normalising an email twice changes nothing: the backend's normalisation of a payload the home page built is a no-op. */
  lemma NormalizeEmailIdempotent(x: Option<string>)
    ensures NormalizeEmail(Some(NormalizeEmail(x))) == NormalizeEmail(x)
  {
    var t := Trim(OrElse(x, ""));
    var e := ToLower(t);
    TrimSpec(OrElse(x, ""));
    assert e == [] || (!IsSpace(e[0]) && !IsSpace(e[|e| - 1])) by {
      if e != [] {
        assert e[0] == LowerChar(t[0]) && e[|e| - 1] == LowerChar(t[|t| - 1]);
      }
    }
    TrimOfTrimmed(e);
    ToLowerIdempotent(t);
  }

  /** Lower-casing twice is lower-casing once. */
  lemma ToLowerIdempotent(s: string)
    ensures ToLower(ToLower(s)) == ToLower(s)
  {
    var r := ToLower(s);
    assert forall i :: 0 <= i < |r| ==> ToLower(r)[i] == r[i];
  }

  // ---------------------------------------------------------------------------
  // indexOf, split, join, includes
  // ---------------------------------------------------------------------------

  /** `s.indexOf(c)`, with `|s|` standing for "not found". */
  function IndexOf(s: string, c: char): (i: nat)
    ensures i <= |s|
    ensures i < |s| ==> s[i] == c
    ensures forall j :: 0 <= j < i ==> s[j] != c
  {
    if s == [] then 0
    else if s[0] == c then 0
    else 1 + IndexOf(s[1..], c)
  }

  /** `s.split(sep)` for a one-character separator. */
  function Split(s: string, sep: char): (parts: seq<string>)
    ensures |parts| >= 1
    ensures forall k :: 0 <= k < |parts| ==> sep !in parts[k]
    ensures parts[0] == s[..IndexOf(s, sep)]
    decreases |s|
  {
    var i := IndexOf(s, sep);
    if i == |s| then [s] else [s[..i]] + Split(s[i + 1..], sep)
  }

  /** One step of `split`: the text before the first separator, then the split of the rest. */
  lemma SplitUnfold(s: string, sep: char)
    ensures IndexOf(s, sep) == |s| ==> Split(s, sep) == [s]
    ensures IndexOf(s, sep) < |s| ==>
              Split(s, sep) == [s[..IndexOf(s, sep)]] + Split(s[IndexOf(s, sep) + 1..], sep)
  {
  }

  /** The index of the first occurrence is the position before which `c` does not occur. */
  lemma {:induction false} IndexOfFirst(s: string, c: char, k: nat)
    requires k < |s| && s[k] == c
    requires forall j :: 0 <= j < k ==> s[j] != c
    ensures IndexOf(s, c) == k
  {
    if k > 0 {
      IndexOfFirst(s[1..], c, k - 1);
    }
  }

  lemma {:induction false} IndexOfAbsent(s: string, c: char)
    requires c !in s
    ensures IndexOf(s, c) == |s|
  {
    if s != [] {
      IndexOfAbsent(s[1..], c);
    }
  }

  /** `parts.join(sep)`. */
  function Join(parts: seq<string>, sep: char): string
  {
    if |parts| == 0 then ""
    else if |parts| == 1 then parts[0]
    else parts[0] + [sep] + Join(parts[1..], sep)
  }

  /** Splitting and joining again with the same separator gives the string back. */
  lemma {:induction false} JoinSplit(s: string, sep: char)
    ensures Join(Split(s, sep), sep) == s
    decreases |s|
  {
    var i := IndexOf(s, sep);
    if i < |s| {
      var rest := s[i + 1..];
      JoinSplit(rest, sep);
      var tail := Split(rest, sep);
      assert Split(s, sep) == [s[..i]] + tail;
      assert Join(Split(s, sep), sep) == s[..i] + [sep] + Join(tail, sep);
      assert s == s[..i] + [sep] + rest;
    }
  }

  /** `q` occurs in `s` starting at index `i`. */
  predicate OccursAt(s: string, q: string, i: int) {
    0 <= i <= |s| - |q| && s[i..i + |q|] == q
  }

  lemma {:induction false} OccursShift(s: string, q: string)
    requires s != [] && !(q <= s)
    ensures (exists i :: OccursAt(s, q, i)) <==> (exists i :: OccursAt(s[1..], q, i))
  {
    if i :| OccursAt(s, q, i) {
      assert i != 0;
      assert s[1..][i - 1..i - 1 + |q|] == s[i..i + |q|];
      assert OccursAt(s[1..], q, i - 1);
    }
    if i :| OccursAt(s[1..], q, i) {
      assert s[i + 1..i + 1 + |q|] == s[1..][i..i + |q|];
      assert OccursAt(s, q, i + 1);
    }
  }

  /** `s.includes(q)`, and what SQL `LIKE '%q%'` selects when `q` holds no wildcard. */
  function Contains(s: string, q: string): (b: bool)
    ensures b <==> exists i :: OccursAt(s, q, i)
    decreases |s|
  {
    if q <= s then
      assert OccursAt(s, q, 0);
      true
    else if s == [] then
      false
    else
      OccursShift(s, q);
      Contains(s[1..], q)
  }

  // ---------------------------------------------------------------------------
  // Number(x)
  // ---------------------------------------------------------------------------

  /** An id as it reaches a handler: a number (from a token or JSON body) or a string (from the URL). */
  datatype IdValue = Num(n: int) | Text(s: string)

  /** `!!x` for an id field of a body: present, and neither 0 nor the empty string. */
  predicate PresentValue(x: Option<IdValue>) {
    x.Some? && (if x.value.Num? then x.value.n != 0 else x.value.s != "")
  }

  predicate IsDigit(c: char) {
    '0' <= c <= '9'
  }

  predicate AllDigits(s: string) {
    forall i :: 0 <= i < |s| ==> IsDigit(s[i])
  }

  function DigitValue(c: char): nat
    requires IsDigit(c)
  {
    c as int - '0' as int
  }

  function DigitsValue(s: string): nat
    requires AllDigits(s)
  {
    if s == [] then 0 else DigitsValue(s[..|s| - 1]) * 10 + DigitValue(s[|s| - 1])
  }

  /**
   * `Number(x)`: a number stays itself; a string is trimmed, the empty string gives 0, an
   * optional sign followed by decimal digits gives their value, anything else gives NaN (`None`).
   */
  function ToNumber(v: IdValue): (r: Option<int>)
    ensures v.Num? ==> r == Some(v.n)
    ensures v.Text? && Trim(v.s) == [] ==> r == Some(0)
    ensures v.Text? && Trim(v.s) != [] && AllDigits(Trim(v.s)) ==> r == Some(DigitsValue(Trim(v.s)))
  {
    match v
    case Num(n) => Some(n)
    case Text(s) =>
      var t := Trim(s);
      if t == [] then Some(0)
      else if AllDigits(t) then Some(DigitsValue(t))
      else if (t[0] == '-' || t[0] == '+') && |t| > 1 && AllDigits(t[1..]) then
        Some(if t[0] == '-' then 0 - DigitsValue(t[1..]) else DigitsValue(t[1..]))
      else None
  }

  /** `Number(a) === Number(b)`: NaN equals nothing, not even itself. */
  predicate SameNumber(a: IdValue, b: IdValue) {
    var x, y := ToNumber(a), ToNumber(b);
    x.Some? && y.Some? && x.value == y.value
  }

  function DigitChar(d: nat): (c: char)
    requires d < 10
    ensures IsDigit(c) && DigitValue(c) == d
  {
    ('0' as int + d) as char
  }

  /** `String(n)` for a non-negative integer. */
  function DecimalString(n: nat): (s: string)
    ensures s != [] && AllDigits(s)
  {
    if n < 10 then [DigitChar(n)] else DecimalString(n / 10) + [DigitChar(n % 10)]
  }

  lemma {:induction false} DigitsValueOfDecimal(n: nat)
    ensures DigitsValue(DecimalString(n)) == n
  {
    var s := DecimalString(n);
    if n >= 10 {
      DigitsValueOfDecimal(n / 10);
      assert s[..|s| - 1] == DecimalString(n / 10);
    }
  }

  /** The id in a URL (`"5"`) and the same id as a number (`5`) coerce to the same number. */
  lemma DecimalTextIsSameNumber(n: nat)
    ensures ToNumber(Text(DecimalString(n))) == Some(n)
    ensures SameNumber(Text(DecimalString(n)), Num(n))
  {
    var s := DecimalString(n);
    TrimOfTrimmed(s);
    DigitsValueOfDecimal(n);
  }
}
