/** The JavaScript value and string semantics the pages depend on: values that
    may be `undefined`, truthiness and `||` defaults, ASCII case mapping,
    `includes`, `trim`, the CSV header transforms and number-to-text. */
module Js {
  import opened Lists

  datatype Option<+T> = None | Some(value: T)

  /** A JavaScript value that is a string or `undefined` (a missing field). */
  type Str = Option<string>

  /** JavaScript truthiness of a string-or-undefined: only a non-empty string is truthy. */
  predicate Truthy(v: Str) {
    v.Some? && v.value != ""
  }

  /** `a || b` over strings-or-undefined. */
  function Or(a: Str, b: Str): Str {
    if Truthy(a) then a else b
  }

  /** `a || d` where `d` is a string literal: always a string. */
  function OrDefault(a: Str, d: string): (r: string)
    ensures Truthy(a) ==> r == a.value
    ensures !Truthy(a) ==> r == d
  {
    if Truthy(a) then a.value else d
  }

  /** A value interpolated into a template literal: `undefined` prints as "undefined". */
  function TemplateText(v: Str): string {
    if v.Some? then v.value else "undefined"
  }

  // ---------------------------------------------------------------------------
  // Case mapping (ASCII only)

  predicate IsUpperAscii(c: char) { 'A' <= c <= 'Z' }
  predicate IsLowerAscii(c: char) { 'a' <= c <= 'z' }
  predicate IsDigit(c: char) { '0' <= c <= '9' }

  function LowerChar(c: char): char {
    if IsUpperAscii(c) then (c as int + 32) as char else c
  }

  function UpperChar(c: char): char {
    if IsLowerAscii(c) then (c as int - 32) as char else c
  }

  /** `s.toLowerCase()` restricted to ASCII letters. */
  function Lower(s: string): (r: string)
    ensures |r| == |s|
    ensures forall i :: 0 <= i < |s| && !IsUpperAscii(s[i]) ==> r[i] == s[i]
    ensures forall i :: 0 <= i < |s| && IsUpperAscii(s[i]) ==> IsLowerAscii(r[i]) && UpperChar(r[i]) == s[i]
    ensures forall i :: 0 <= i < |r| ==> !IsUpperAscii(r[i])
  {
    seq(|s|, i requires 0 <= i < |s| => LowerChar(s[i]))
  }

  /** `s.toUpperCase()` restricted to ASCII letters. */
  function Upper(s: string): (r: string)
    ensures |r| == |s|
    ensures forall i :: 0 <= i < |s| && !IsLowerAscii(s[i]) ==> r[i] == s[i]
    ensures forall i :: 0 <= i < |s| && IsLowerAscii(s[i]) ==> IsUpperAscii(r[i]) && LowerChar(r[i]) == s[i]
    ensures forall i :: 0 <= i < |r| ==> !IsLowerAscii(r[i])
  {
    seq(|s|, i requires 0 <= i < |s| => UpperChar(s[i]))
  }

  // ---------------------------------------------------------------------------
  // Substring search

  predicate StartsWith(s: string, prefix: string) {
    |prefix| <= |s| && s[..|prefix|] == prefix
  }

  /** `s.includes(needle)`, by trying every start position from the left. */
  predicate Includes(s: string, needle: string)
    decreases |s|
  {
    StartsWith(s, needle) || (|s| > 0 && Includes(s[1..], needle))
  }

  /** `needle` occurs in `s` starting at position `i`. */
  predicate OccursAt(s: string, needle: string, i: int) {
    0 <= i && i + |needle| <= |s| && s[i..i + |needle|] == needle
  }

  /** `Includes` agrees with the positional definition of a substring. */
  lemma {:induction false} IncludesAt(s: string, needle: string)
    ensures Includes(s, needle) <==> exists i :: OccursAt(s, needle, i)
    decreases |s|
  {
    if Includes(s, needle) {
      if StartsWith(s, needle) {
        assert OccursAt(s, needle, 0);
      } else {
        IncludesAt(s[1..], needle);
        var i :| OccursAt(s[1..], needle, i);
        assert s[1..][i..i + |needle|] == s[i + 1..i + 1 + |needle|];
        assert OccursAt(s, needle, i + 1);
      }
    }
    if exists i :: OccursAt(s, needle, i) {
      var i :| OccursAt(s, needle, i);
      if i == 0 {
        assert StartsWith(s, needle);
      } else {
        assert s[1..][i - 1..i - 1 + |needle|] == s[i..i + |needle|];
        assert OccursAt(s[1..], needle, i - 1);
        IncludesAt(s[1..], needle);
      }
    }
  }

  /** Every string includes the empty string, so an empty search matches everything. */
  lemma IncludesEmpty(s: string)
    ensures Includes(s, "")
  {
    assert StartsWith(s, "");
  }

  // ---------------------------------------------------------------------------
  // trim()

  /** The characters `String.prototype.trim` removes: ECMAScript WhiteSpace
      (including the Unicode space separators) and LineTerminator. */
  predicate IsJsSpace(c: char) {
    var n := c as int;
    n == 0x09 || n == 0x0A || n == 0x0B || n == 0x0C || n == 0x0D || n == 0x20 ||
    n == 0xA0 || n == 0x1680 || (0x2000 <= n <= 0x200A) || n == 0x2028 ||
    n == 0x2029 || n == 0x202F || n == 0x205F || n == 0x3000 || n == 0xFEFF
  }

  /** How much white space `s` starts with. */
  function LeadingSpace(s: string): (n: nat)
    ensures n <= |s|
    ensures forall k :: 0 <= k < n ==> IsJsSpace(s[k])
    ensures n < |s| ==> !IsJsSpace(s[n])
  {
    if |s| > 0 && IsJsSpace(s[0]) then 1 + LeadingSpace(s[1..]) else 0
  }

  /** How much white space `s` ends with. */
  function TrailingSpace(s: string): (n: nat)
    ensures n <= |s|
    ensures forall k :: |s| - n <= k < |s| ==> IsJsSpace(s[k])
    ensures n < |s| ==> !IsJsSpace(s[|s| - 1 - n])
  {
    if |s| > 0 && IsJsSpace(s[|s| - 1]) then 1 + TrailingSpace(s[..|s| - 1]) else 0
  }

  /** `s.trim()`: the result is the slice of `s` that is left once the white
      space at both ends is cut off; it neither starts nor ends with white
      space, is empty exactly when the input is all white space, and is the
      input itself when that has no white space at either end. */
  function Trim(s: string): (r: string)
    ensures LeadingSpace(s) + |r| <= |s| && r == s[LeadingSpace(s)..LeadingSpace(s) + |r|]
    ensures forall k :: 0 <= k < LeadingSpace(s) ==> IsJsSpace(s[k])
    ensures forall k :: LeadingSpace(s) + |r| <= k < |s| ==> IsJsSpace(s[k])
    ensures |r| > 0 ==> !IsJsSpace(r[0]) && !IsJsSpace(r[|r| - 1])
    ensures r == [] <==> forall k :: 0 <= k < |s| ==> IsJsSpace(s[k])
    ensures |s| > 0 && !IsJsSpace(s[0]) && !IsJsSpace(s[|s| - 1]) ==> r == s
  {
    var a := LeadingSpace(s);
    if a == |s| then [] else s[a..|s| - TrailingSpace(s)]
  }

  /** Trimming twice is trimming once. */
  lemma TrimIdempotent(s: string)
    ensures Trim(Trim(s)) == Trim(s)
  {
    var r := Trim(s);
    if r != [] {
      assert Trim(r) == r;
    }
  }

  // ---------------------------------------------------------------------------
  // CSV header normalisation

  predicate IsAsciiAlnum(c: char) {
    IsLowerAscii(c) || IsUpperAscii(c) || IsDigit(c)
  }

  /** `s.replace(/[^a-zA-Z0-9]/g, "")`. */
  function KeepAlnum(s: string): (r: string)
    ensures forall c :: c in r <==> c in s && IsAsciiAlnum(c)
    ensures (forall k :: 0 <= k < |s| ==> IsAsciiAlnum(s[k])) ==> r == s
    decreases |s|
  {
    if s == [] then []
    else (if IsAsciiAlnum(s[0]) then [s[0]] else []) + KeepAlnum(s[1..])
  }

  /** The filter works on each part of a concatenation separately. */
  lemma {:induction false} KeepAlnumAppend(a: string, b: string)
    ensures KeepAlnum(a + b) == KeepAlnum(a) + KeepAlnum(b)
    decreases |a|
  {
    if a == [] {
      assert a + b == b;
    } else {
      assert (a + b)[0] == a[0];
      assert (a + b)[1..] == a[1..] + b;
      KeepAlnumAppend(a[1..], b);
    }
  }

  /** The roster pages' `transformHeader`:
      `h.trim().toLowerCase().replace(/[^a-zA-Z0-9]/g, "")`.
      Whatever the input, only lower-case letters and digits are left. */
  function NormalizeHeader(h: string): (r: string)
    ensures forall i :: 0 <= i < |r| ==> IsLowerAscii(r[i]) || IsDigit(r[i])
    ensures r == KeepAlnum(Lower(h))
  {
    var lowered := Lower(Trim(h));
    var r := KeepAlnum(lowered);
    assert forall i :: 0 <= i < |r| ==> r[i] in lowered && IsAsciiAlnum(r[i]);
    TrimIsRedundant(h);
    r
  }

  /** White space lower-cases to itself and is not alphanumeric, so a run of
      it contributes nothing to a normalised header. */
  lemma {:induction false} SpacesDropOut(w: string)
    requires forall k :: 0 <= k < |w| ==> IsJsSpace(w[k])
    ensures KeepAlnum(Lower(w)) == []
    decreases |w|
  {
    if w != [] {
      SpaceIsNotAlnum(w[0]);
      assert Lower(w)[0] == w[0];
      assert Lower(w)[1..] == Lower(w[1..]);
      SpacesDropOut(w[1..]);
    }
  }

  /** A white-space character is neither a letter nor a digit. */
  lemma SpaceIsNotAlnum(c: char)
    requires IsJsSpace(c)
    ensures !IsAsciiAlnum(c) && !IsUpperAscii(c)
  {
  }

  lemma LowerAppend(a: string, b: string)
    ensures Lower(a + b) == Lower(a) + Lower(b)
  {
  }

  /** The `trim()` in front of the header transform changes nothing: the white
      space it removes is dropped by the alphanumeric filter anyway. */
  lemma TrimIsRedundant(h: string)
    ensures KeepAlnum(Lower(Trim(h))) == KeepAlnum(Lower(h))
  {
    var r := Trim(h);
    var a := LeadingSpace(h);
    var pre, post := h[..a], h[a + |r|..];
    assert h == pre + r + post;
    DropSpaceEnds(pre, r, post);
  }

  /** White space on either side of `mid` leaves its normalised form alone. */
  lemma DropSpaceEnds(pre: string, mid: string, post: string)
    requires forall k :: 0 <= k < |pre| ==> IsJsSpace(pre[k])
    requires forall k :: 0 <= k < |post| ==> IsJsSpace(post[k])
    ensures KeepAlnum(Lower(pre + mid + post)) == KeepAlnum(Lower(mid))
  {
    LowerAppend(pre + mid, post);
    LowerAppend(pre, mid);
    KeepAlnumAppend(Lower(pre) + Lower(mid), Lower(post));
    KeepAlnumAppend(Lower(pre), Lower(mid));
    SpacesDropOut(pre);
    SpacesDropOut(post);
  }

  /** Text with no upper-case ASCII letter is its own lower-case form. */
  lemma LowerFixed(s: string)
    requires forall i :: 0 <= i < |s| ==> !IsUpperAscii(s[i])
    ensures Lower(s) == s
  {
  }

  /** Text of letters and digits only is unchanged by `trim` and by the
      alphanumeric filter. */
  lemma AlnumFixed(s: string)
    requires forall i :: 0 <= i < |s| ==> IsAsciiAlnum(s[i])
    ensures Trim(s) == s
    ensures KeepAlnum(s) == s
  {
    if s != [] {
      assert !IsJsSpace(s[0]) && !IsJsSpace(s[|s| - 1]);
    }
  }

  /** Normalising an already normalised header changes nothing, so a CSV whose
      headers are already canonical (`idnumber`, `email`, ...) maps onto itself. */
  lemma NormalizeHeaderIdempotent(h: string)
    ensures NormalizeHeader(NormalizeHeader(h)) == NormalizeHeader(h)
  {
    var r := NormalizeHeader(h);
    AlnumFixed(r);
    LowerFixed(r);
  }

  // ---------------------------------------------------------------------------
  // Numbers as text

  function DigitChar(d: nat): (c: char)
    requires d < 10
    ensures IsDigit(c) && c as int - '0' as int == d
  {
    ('0' as int + d) as char
  }

  /** `${n}` for a non-negative integer: its decimal digits, without leading zeros. */
  function NatToString(n: nat): (r: string)
    ensures |r| >= 1
    ensures forall i :: 0 <= i < |r| ==> IsDigit(r[i])
    ensures |r| > 1 ==> r[0] != '0'
    decreases n
  {
    if n < 10 then [DigitChar(n)] else NatToString(n / 10) + [DigitChar(n % 10)]
  }

  /** The number a string of decimal digits denotes. */
  function DecimalValue(s: string): nat
    requires forall i :: 0 <= i < |s| ==> IsDigit(s[i])
  {
    if s == [] then 0
    else
      var last := s[|s| - 1];
      assert IsDigit(last);
      DecimalValue(s[..|s| - 1]) * 10 + (last as int - '0' as int)
  }

  /** Reading back the digits `NatToString` writes gives the number again. */
  lemma {:induction false} DecimalRoundTrip(n: nat)
    ensures DecimalValue(NatToString(n)) == n
    decreases n
  {
    if n >= 10 {
      var s := NatToString(n);
      assert s[..|s| - 1] == NatToString(n / 10);
      DecimalRoundTrip(n / 10);
    }
  }
}
