/** Shared vocabulary of the model: optional values and results, the shape of
    an API answer as a handler produces it and as a page receives it, the
    visible effect of a UI handler, and the string operations the source
    borrows from JavaScript (template interpolation, `trim`, `join`, number
    formatting). */
module Common {

  /** A value that may be absent (`undefined` / `null` in the source). */
  datatype Option<+T> = None | Some(value: T) {

    /** The value, or `default` when absent (the source's `x || default`
        when the only falsy value `x` can take is "absent"). */
    function GetOr(default: T): T {
      match this
      case Some(v) => v
      case None => default
    }
  }

  /** Outcome of an operation that may throw: the thrown error is `Err`. */
  datatype Result<+T, +E> = Ok(value: T) | Err(error: E)

  /** What a request handler answers: a JSON body with HTTP status 200, or
      status 400 with `{error}`. */
  datatype ApiResponse<+T> = Success(payload: T) | ClientError(error: string) {

    function Status(): int {
      if Success? then 200 else 400
    }
  }

  /** What a page sees of one of its own API calls. `Unreachable` is a
      rejected `fetch` or a body that is not JSON; otherwise `ok` is the
      response's `ok` flag, `payload` the field the page reads (`None` when
      it is missing or falsy) and `error` the `error` field ("" when absent). */
  datatype Answer<+T> = Unreachable | Answered(ok: bool, payload: Option<T>, error: string)

  /** A request body `{keyword}` that could be read; a missing or falsy
      keyword is "". An unreadable (or `null`) body is `None` where it is
      used. */
  datatype KeywordRequest = KeywordRequest(keyword: string)

  /** The visible effect of a UI handler besides its state changes. */
  datatype Effect = Stay | Navigate(path: string) | Alert(message: string)

  function Min(a: int, b: int): int {
    if a <= b then a else b
  }

  /** The text of `${x}` for a string field that may be absent. */
  function TemplateText(x: Option<string>): (r: string)
    ensures x.Some? ==> r == x.value
    ensures x.None? ==> r == "undefined"
  {
    x.GetOr("undefined")
  }

  /** `needle` occurs as a contiguous piece of `hay`. */
  ghost predicate IsInfix(needle: string, hay: string) {
    exists i :: OccursAt(needle, hay, i)
  }

  predicate IsPrefixOf(prefix: string, s: string) {
    |prefix| <= |s| && s[..|prefix|] == prefix
  }

  predicate OccursAt(needle: string, hay: string, i: int) {
    0 <= i <= |hay| - |needle| && hay[i..i + |needle|] == needle
  }

  lemma InfixOfConcat(a: string, b: string, c: string)
    ensures IsInfix(b, a + b + c)
  {
    var s := a + b + c;
    assert s[|a|..|a| + |b|] == b;
    assert OccursAt(b, s, |a|);
  }

  lemma InfixOfLonger(needle: string, a: string, b: string, c: string)
    requires IsInfix(needle, b)
    ensures IsInfix(needle, a + b + c)
  {
    var i :| OccursAt(needle, b, i);
    var s := a + b + c;
    assert s[|a| + i..|a| + i + |needle|] == b[i..i + |needle|];
    assert OccursAt(needle, s, |a| + i);
  }

  // ---------------------------------------------------------------------
  // String.prototype.trim

  /** The characters ECMAScript's `trim` removes: WhiteSpace and
      LineTerminator (section 12.2 and 12.3 of ECMA-262). */
  predicate IsWhitespace(c: char) {
    || c == ' ' || c == '\t' || c == '\n' || c == '\r'
    || c == '\U{000B}' || c == '\U{000C}' || c == '\U{00A0}' || c == '\U{1680}'
    || ('\U{2000}' <= c <= '\U{200A}')
    || c == '\U{2028}' || c == '\U{2029}' || c == '\U{202F}' || c == '\U{205F}'
    || c == '\U{3000}' || c == '\U{FEFF}'
  }

  /** Number of whitespace characters `s` starts with. */
  function LeadingSpace(s: string): (n: nat)
    ensures n <= |s|
    ensures forall k :: 0 <= k < n ==> IsWhitespace(s[k])
    ensures n < |s| ==> !IsWhitespace(s[n])
  {
    if |s| > 0 && IsWhitespace(s[0]) then 1 + LeadingSpace(s[1..]) else 0
  }

  /** Number of whitespace characters `s` ends with. */
  function TrailingSpace(s: string): (n: nat)
    ensures n <= |s|
    ensures forall k :: |s| - n <= k < |s| ==> IsWhitespace(s[k])
    ensures n < |s| ==> !IsWhitespace(s[|s| - 1 - n])
  {
    if |s| > 0 && IsWhitespace(s[|s| - 1]) then 1 + TrailingSpace(s[..|s| - 1]) else 0
  }

  /** `r` is `s` with its whitespace margins cut off: a contiguous piece of
      `s`, everything around it whitespace, and it neither starts nor ends
      with whitespace. */
  ghost predicate IsTrimOf(r: string, s: string) {
    exists i, j :: TrimsAt(r, s, i, j)
  }

  /** `r` is `s[i..j]`, cut at whitespace margins. */
  ghost predicate TrimsAt(r: string, s: string, i: int, j: int) {
    && 0 <= i <= j <= |s|
    && r == s[i..j]
    && (forall k :: 0 <= k < i ==> IsWhitespace(s[k]))
    && (forall k :: j <= k < |s| ==> IsWhitespace(s[k]))
    && (|r| > 0 ==> !IsWhitespace(r[0]) && !IsWhitespace(r[|r| - 1]))
  }

  /** `s.trim()`. */
  function Trim(s: string): (r: string)
    ensures |r| <= |s|
    ensures IsTrimOf(r, s)
  {
    var i := LeadingSpace(s);
    var t := s[i..];
    var n := TrailingSpace(t);
    var r := t[..|t| - n];
    assert r == s[i..i + |r|];
    assert forall k :: i + |r| <= k < |s| ==> IsWhitespace(s[k]) by {
      forall k | i + |r| <= k < |s| ensures IsWhitespace(s[k]) {
        assert s[k] == t[k - i];
      }
    }
    assert TrimsAt(r, s, i, i + |r|);
    r
  }

  lemma TrimAllWhitespace(s: string)
    requires forall k :: 0 <= k < |s| ==> IsWhitespace(s[k])
    ensures Trim(s) == ""
  {
    assert LeadingSpace(s) == |s|;
  }

  /** The margins of a trim are determined: whatever satisfies the
      description is what `Trim` computes. */
  lemma TrimUnique(r: string, s: string)
    requires IsTrimOf(r, s)
    ensures r == Trim(s)
  {
    var i, j :| TrimsAt(r, s, i, j);
    if i == j {
      // everything is whitespace, so the trim is empty
      assert forall k :: 0 <= k < |s| ==> IsWhitespace(s[k]) by {
        forall k | 0 <= k < |s| ensures IsWhitespace(s[k]) {
          if k >= j {} else {}
        }
      }
      TrimAllWhitespace(s);
    } else {
      TrimMargins(r, s, i, j);
    }
  }

  lemma TrimMargins(r: string, s: string, i: int, j: int)
    requires TrimsAt(r, s, i, j) && i < j
    ensures r == Trim(s)
  {
    assert !IsWhitespace(s[i]) && !IsWhitespace(s[j - 1]);
    var a := LeadingSpace(s);
    assert a == i;
    var t := s[a..];
    var n := TrailingSpace(t);
    assert t[j - i - 1] == s[j - 1];
    assert forall k :: j - i <= k < |t| ==> IsWhitespace(t[k]) by {
      forall k | j - i <= k < |t| ensures IsWhitespace(t[k]) {
        assert t[k] == s[k + i];
      }
    }
    assert n == |t| - (j - i);
  }

  lemma TrimIdempotent(s: string)
    ensures Trim(Trim(s)) == Trim(s)
  {
    var r := Trim(s);
    assert r[0..|r|] == r;
    assert TrimsAt(r, r, 0, |r|);
    TrimUnique(r, r);
  }

  /** A string without whitespace margins is its own trim. */
  lemma TrimKeepsTrimmed(s: string)
    requires |s| > 0 ==> !IsWhitespace(s[0]) && !IsWhitespace(s[|s| - 1])
    ensures Trim(s) == s
  {
    assert s[0..|s|] == s;
    assert TrimsAt(s, s, 0, |s|);
    TrimUnique(s, s);
  }

  // ---------------------------------------------------------------------
  // Array.prototype.join

  /** `xs.join(sep)`. */
  function Join(xs: seq<string>, sep: string): (r: string)
    ensures |xs| == 0 ==> r == ""
    ensures |xs| == 1 ==> r == xs[0]
    ensures forall i :: 0 <= i < |xs| ==> IsInfix(xs[i], r)
  {
    if |xs| == 0 then ""
    else if |xs| == 1 then
      assert xs[0] == [] + xs[0] + [];
      InfixOfConcat([], xs[0], []);
      xs[0]
    else
      var rest := Join(xs[1..], sep);
      InfixOfConcat([], xs[0], sep + rest);
      assert [] + xs[0] + (sep + rest) == xs[0] + sep + rest;
      assert forall i :: 1 <= i < |xs| ==> IsInfix(xs[i], xs[0] + sep + rest) by {
        forall i | 1 <= i < |xs| ensures IsInfix(xs[i], xs[0] + sep + rest) {
          assert xs[i] == xs[1..][i - 1];
          InfixOfLonger(xs[i], xs[0] + sep, rest, []);
          assert xs[0] + sep + rest + [] == xs[0] + sep + rest;
        }
      }
      xs[0] + sep + rest
  }

  /** Appending an element to a non-empty list appends the separator and
      the element to its join. With the one- and zero-element cases of
      `Join`'s contract this fixes the joined text completely. */
  lemma {:induction false} JoinSnoc(xs: seq<string>, x: string, sep: string)
    requires |xs| > 0
    ensures Join(xs + [x], sep) == Join(xs, sep) + sep + x
  {
    if |xs| == 1 {
      assert xs + [x] == [xs[0], x];
      assert [xs[0], x][1..] == [x];
    } else {
      assert (xs + [x])[1..] == xs[1..] + [x];
      JoinSnoc(xs[1..], x, sep);
    }
  }

  // ---------------------------------------------------------------------
  // Decimal rendering of a non-negative integer (`${n}`)

  function DigitChar(d: nat): (c: char)
    requires d < 10
    ensures '0' <= c <= '9'
    ensures c as int - '0' as int == d
  {
    ('0' as int + d) as char
  }

  predicate AllDigits(s: string) {
    forall i :: 0 <= i < |s| ==> '0' <= s[i] <= '9'
  }

  /** Decimal text of `n`, without leading zeros. */
  function Decimal(n: nat): (r: string)
    ensures |r| >= 1
    ensures AllDigits(r)
    ensures |r| > 1 ==> r[0] != '0'
  {
    if n < 10 then [DigitChar(n)] else Decimal(n / 10) + [DigitChar(n % 10)]
  }

  /** The number a string of decimal digits denotes. */
  function DecimalValue(s: string): nat
    requires AllDigits(s)
  {
    if |s| == 0 then 0
    else DecimalValue(s[..|s| - 1]) * 10 + (s[|s| - 1] as int - '0' as int)
  }

  /** Reading back a rendered number gives the number. */
  lemma {:induction false} DecimalRoundTrip(n: nat)
    ensures DecimalValue(Decimal(n)) == n
  {
    if n >= 10 {
      var r := Decimal(n);
      assert r[..|r| - 1] == Decimal(n / 10);
      DecimalRoundTrip(n / 10);
    }
  }
}
