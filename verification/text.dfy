/**
 * Python's text primitives used by the relay, restricted to ASCII character classes:
 * `str.strip`, `str.lower`, `str.capitalize`, `str.split(sep)`, `", ".join`,
 * `str()` of the scalar values that appear in property dictionaries, and UTF-8 encoding.
 */
module Text {
  import opened Base

  /** Python's `str.isspace` on the ASCII range (also what `\s` matches there). */
  predicate IsSpace(c: char) {
    var n := c as int; n == 32 || 9 <= n <= 13 || 28 <= n <= 31
  }

  predicate IsDigit(c: char) { '0' <= c <= '9' }
  predicate IsUpper(c: char) { 'A' <= c <= 'Z' }
  predicate IsLower(c: char) { 'a' <= c <= 'z' }
  predicate IsAlnum(c: char) { IsUpper(c) || IsLower(c) || IsDigit(c) }

  function LowerChar(c: char): (r: char)
    ensures !IsUpper(r)
    ensures IsLower(c) || IsUpper(c) <==> IsLower(r)
    ensures IsDigit(r) <==> IsDigit(c)
    ensures !IsUpper(c) ==> r == c
  {
    if IsUpper(c) then (c as int + 32) as char else c
  }

  function UpperChar(c: char): (r: char)
    ensures !IsLower(r)
    ensures IsLower(c) || IsUpper(c) <==> IsUpper(r)
    ensures IsDigit(r) <==> IsDigit(c)
    ensures !IsLower(c) ==> r == c
  {
    if IsLower(c) then (c as int - 32) as char else c
  }

  /** `s.lower()` */
  function Lower(s: string): (r: string)
    ensures |r| == |s|
    ensures forall i :: 0 <= i < |s| ==> r[i] == LowerChar(s[i])
  {
    seq(|s|, i requires 0 <= i < |s| => LowerChar(s[i]))
  }

  /** `s.upper()` */
  function Upper(s: string): (r: string)
    ensures |r| == |s|
    ensures forall i :: 0 <= i < |s| ==> r[i] == UpperChar(s[i])
  {
    seq(|s|, i requires 0 <= i < |s| => UpperChar(s[i]))
  }

  /** `s.capitalize()`: first character upper-cased, the rest lower-cased. */
  function Capitalize(s: string): (r: string)
    ensures |r| == |s|
    ensures s != [] ==> r[0] == UpperChar(s[0])
    ensures forall i :: 0 < i < |s| ==> r[i] == LowerChar(s[i])
  {
    if s == [] then [] else [UpperChar(s[0])] + Lower(s[1..])
  }

  /** `s.lstrip()` */
  function TrimStart(s: string): (r: string)
    ensures |r| <= |s| && r == s[|s| - |r|..]
    ensures r != [] ==> !IsSpace(r[0])
    ensures forall k :: 0 <= k < |s| - |r| ==> IsSpace(s[k])
  {
    if s != [] && IsSpace(s[0]) then TrimStart(s[1..]) else s
  }

  /** `s.rstrip()` */
  function TrimEnd(s: string): (r: string)
    ensures |r| <= |s| && r == s[..|r|]
    ensures r != [] ==> !IsSpace(r[|r| - 1])
    ensures forall k :: |r| <= k < |s| ==> IsSpace(s[k])
  {
    if s != [] && IsSpace(s[|s| - 1]) then TrimEnd(s[..|s| - 1]) else s
  }

  /** `s.strip()`: the longest infix that neither starts nor ends with whitespace. */
  function Strip(s: string): (r: string)
    ensures |r| <= |s|
    ensures r != [] ==> !IsSpace(r[0]) && !IsSpace(r[|r| - 1])
    ensures forall c :: c in r ==> c in s
  {
    TrimEnd(TrimStart(s))
  }

  /** Stripping a string that has no surrounding whitespace leaves it unchanged. */
  lemma StripNoop(s: string)
    requires s != [] ==> !IsSpace(s[0]) && !IsSpace(s[|s| - 1])
    ensures Strip(s) == s
  {
  }

  /** `str.strip` is idempotent. */
  lemma StripIdempotent(s: string)
    ensures Strip(Strip(s)) == Strip(s)
  {
    StripNoop(Strip(s));
  }

  /** Index of the first occurrence of `c` in `s`. */
  function IndexOf(s: string, c: char): (i: nat)
    requires c in s
    ensures i < |s| && s[i] == c && c !in s[..i]
  {
    if s[0] == c then 0 else 1 + IndexOf(s[1..], c)
  }

  /** `s.split(sep)` for a one-character separator. */
  function Split(s: string, sep: char): (parts: seq<string>)
    ensures |parts| >= 1
    ensures forall p :: p in parts ==> sep !in p
    decreases |s|
  {
    if sep !in s then [s]
    else
      var i := IndexOf(s, sep);
      [s[..i]] + Split(s[i + 1..], sep)
  }

  /** `sep.join(parts)` */
  function Join(parts: seq<string>, sep: string): string {
    if parts == [] then ""
    else if |parts| == 1 then parts[0]
    else parts[0] + sep + Join(parts[1..], sep)
  }

  /** Joining pieces free of the separator and splitting again gives back the pieces. */
  lemma {:induction false} SplitJoin(parts: seq<string>, sep: char)
    requires parts != []
    requires forall p :: p in parts ==> sep !in p
    ensures Split(Join(parts, [sep]), sep) == parts
  {
    if |parts| > 1 {
      var s := Join(parts, [sep]);
      var rest := Join(parts[1..], [sep]);
      assert s == parts[0] + [sep] + rest;
      assert s[|parts[0]|] == sep;
      assert sep in s;
      IndexOfAfterPrefix(parts[0], sep, rest);
      assert s[..|parts[0]|] == parts[0];
      assert s[|parts[0]| + 1..] == rest;
      SplitJoin(parts[1..], sep);
    } else {
      assert Join(parts, [sep]) == parts[0];
    }
  }

  /** The first `c` in `a + [c] + b` sits right after `a` when `a` has none. */
  lemma {:induction false} IndexOfAfterPrefix(a: string, c: char, b: string)
    requires c !in a
    ensures c in a + [c] + b && IndexOf(a + [c] + b, c) == |a|
  {
    if a != [] {
      assert (a + [c] + b)[1..] == a[1..] + [c] + b;
      IndexOfAfterPrefix(a[1..], c, b);
    }
  }

  /** `[p.strip() for p in pieces if p.strip()]`: the stripped pieces that are not blank, in order. */
  function StrippedNonBlank(pieces: seq<string>): (r: seq<string>)
    ensures |r| <= |pieces|
    ensures forall p :: p in r ==> p != "" && Strip(p) == p
  {
    if pieces == [] then []
    else
      var s := Strip(pieces[0]);
      StripIdempotent(pieces[0]);
      (if s != "" then [s] else []) + StrippedNonBlank(pieces[1..])
  }

  /** A character absent from every piece is absent from every kept piece. */
  lemma {:induction false} StrippedNonBlankAvoids(pieces: seq<string>, c: char)
    requires forall q :: q in pieces ==> c !in q
    ensures forall p :: p in StrippedNonBlank(pieces) ==> c !in p
  {
    if pieces != [] {
      assert forall q :: q in pieces[1..] ==> q in pieces;
      StrippedNonBlankAvoids(pieces[1..], c);
    }
  }

  /** Stripped, non-blank pieces pass through `StrippedNonBlank` unchanged. */
  lemma {:induction false} StrippedNonBlankNoop(pieces: seq<string>)
    requires forall p :: p in pieces ==> p != "" && Strip(p) == p
    ensures StrippedNonBlank(pieces) == pieces
  {
    if pieces != [] {
      var x, rest := pieces[0], pieces[1..];
      assert pieces == [x] + rest;
      assert x in pieces;
      assert forall q :: q in rest ==> q in pieces;
      StrippedNonBlankCons(x, rest);
      StrippedNonBlankNoop(rest);
    }
  }

  /** Cleaning a list with a first element. */
  lemma StrippedNonBlankCons(x: string, rest: seq<string>)
    ensures StrippedNonBlank([x] + rest) == (if Strip(x) != "" then [Strip(x)] else []) + StrippedNonBlank(rest)
  {
    assert ([x] + rest)[0] == x;
    assert ([x] + rest)[1..] == rest;
  }

  /** A single piece is kept, stripped, exactly when it is not blank. */
  lemma StrippedNonBlankSingle(x: string)
    ensures StrippedNonBlank([x]) == (if Strip(x) != "" then [Strip(x)] else [])
  {
    StrippedNonBlankCons(x, []);
    assert [x] + [] == [x];
  }

  /** Cleaning works piece by piece: cleaning a concatenation concatenates the cleaned parts. */
  lemma {:induction false} StrippedNonBlankAppend(a: seq<string>, b: seq<string>)
    ensures StrippedNonBlank(a + b) == StrippedNonBlank(a) + StrippedNonBlank(b)
  {
    if a != [] {
      var x, rest := a[0], a[1..];
      assert a == [x] + rest;
      assert a + b == [x] + (rest + b);
      StrippedNonBlankCons(x, rest + b);
      StrippedNonBlankCons(x, rest);
      StrippedNonBlankAppend(rest, b);
    } else {
      assert a + b == b;
    }
  }

  /** Decimal rendering of a natural number. */
  function NatToDecimal(n: nat): (r: string)
    ensures r != []
    decreases n
  {
    var d := [(48 + n % 10) as char];
    if n < 10 then d else NatToDecimal(n / 10) + d
  }

  /** The rendering is made of digits only. */
  lemma {:induction false} NatToDecimalDigits(n: nat)
    ensures forall c :: c in NatToDecimal(n) ==> IsDigit(c)
    decreases n
  {
    if n >= 10 {
      NatToDecimalDigits(n / 10);
    }
  }

  /** `str(i)` for a Python int. */
  function IntToDecimal(i: int): (r: string)
    ensures r != []
  {
    if i < 0 then "-" + NatToDecimal(-i) else NatToDecimal(i)
  }

  /** A scalar Python value as it appears in a message's property dictionary or a spec dict. */
  datatype PyValue = PyNone | PyBool(b: bool) | PyInt(i: int) | PyStr(s: string)

  /** Python truthiness. */
  predicate Truthy(v: PyValue) {
    match v
    case PyNone => false
    case PyBool(b) => b
    case PyInt(i) => i != 0
    case PyStr(s) => s != ""
  }

  /** `str(v)` */
  function PyStrOf(v: PyValue): string {
    match v
    case PyNone => "None"
    case PyBool(b) => if b then "True" else "False"
    case PyInt(i) => IntToDecimal(i)
    case PyStr(s) => s
  }

  /** An `Optional[str]` field read as a Python value: `None` or the string. */
  function OptionalStr(o: Option<string>): (v: PyValue)
    ensures Truthy(v) <==> Present(o)
  {
    match o
    case None => PyNone
    case Some(s) => PyStr(s)
  }

  /** Python's `x or y`: `x` itself when it is truthy, otherwise `y`. */
  function PyOr(x: PyValue, y: PyValue): (r: PyValue)
    ensures Truthy(x) ==> r == x
    ensures !Truthy(x) ==> r == y
  {
    if Truthy(x) then x else y
  }

  /** `dict.get(key)`: the value, or `None` when the key is missing. */
  function Get(m: map<string, PyValue>, key: string): PyValue {
    if key in m then m[key] else PyNone
  }

  // ---------------------------------------------------------------------------
  // UTF-8 (`str.encode("utf-8")`)
  // ---------------------------------------------------------------------------

  predicate IsAscii(s: string) {
    forall i :: 0 <= i < |s| ==> s[i] as int < 128
  }

  /** The UTF-8 encoding of one Unicode scalar value (RFC 3629, section 3). */
  function EncodeChar(c: char): (r: seq<byte>)
    ensures 1 <= |r| <= 4
    ensures c as int < 128 <==> |r| == 1
    ensures c as int < 128 ==> r[0] as int == c as int
  {
    var n := c as int;
    if n < 0x80 then [n as byte]
    else if n < 0x800 then [(0xC0 + n / 64) as byte, (0x80 + n % 64) as byte]
    else if n < 0x10000 then
      [(0xE0 + n / 4096) as byte, (0x80 + (n / 64) % 64) as byte, (0x80 + n % 64) as byte]
    else
      [(0xF0 + n / 262144) as byte, (0x80 + (n / 4096) % 64) as byte,
       (0x80 + (n / 64) % 64) as byte, (0x80 + n % 64) as byte]
  }

  /** `s.encode("utf-8")`: never fails on scalar values, at most four bytes per character. */
  function EncodeUtf8(s: string): (r: seq<byte>)
    ensures |s| <= |r| <= 4 * |s|
    ensures IsAscii(s) ==> |r| == |s| && forall i :: 0 <= i < |s| ==> r[i] as int == s[i] as int
  {
    if s == [] then []
    else
      var head := EncodeChar(s[0]);
      var tail := EncodeUtf8(s[1..]);
      assert IsAscii(s) ==> IsAscii(s[1..]) by {
        if IsAscii(s) {
          forall i | 0 <= i < |s[1..]| ensures s[1..][i] as int < 128 {
            assert s[1..][i] == s[i + 1];
          }
        }
      }
      head + tail
  }
}
