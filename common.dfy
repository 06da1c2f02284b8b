/** Shared vocabulary of the model: optional values and error results (Go's
    `(T, error)` pairs), bytes, Go's view of strings as UTF-8 byte sequences,
    `strings.TrimSpace` and `strings.Join`. */
module Common {

  datatype Option<+T> = None | Some(value: T)

  /** A Go `(value, error)` pair: exactly one of the two is meaningful. */
  datatype Result<+T, +E> = Ok(value: T) | Err(error: E)

  /** A Go `byte`. Bit-vector so that XOR and shifts are native. */
  type byte = bv8

  /** A Go `time.Duration`, in nanoseconds. */
  type Duration = int

  const Millisecond: Duration := 1_000_000
  const Second: Duration := 1000 * Millisecond
  const Hour: Duration := 3600 * Second

  /** A value of Go's empty interface `any`, restricted to the kinds the
      modelled code stores (log fields, system messages). */
  datatype Any = Nil | Str(s: string) | Int(i: int) | Bool(b: bool)

  // ---------------------------------------------------------------------------
  // Go strings as bytes. A Go `string` is a byte sequence; the model keeps text
  // as Dafny `string` (Unicode scalar values) and obtains the bytes Go sees --
  // `len(s)` and `[]byte(s)` -- through their UTF-8 encoding.
  // ---------------------------------------------------------------------------

  /** UTF-8 encoding of one scalar value (RFC 3629, section 3). */
  function Utf8Char(c: char): (r: seq<byte>)
    ensures 1 <= |r| <= 4
    ensures |r| == 1 <==> c as int < 0x80
  {
    var v := c as int;
    if v < 0x80 then [v as bv8]
    else if v < 0x800 then [(0xC0 + v / 64) as bv8, (0x80 + v % 64) as bv8]
    else if v < 0x10000 then
      [(0xE0 + v / 4096) as bv8, (0x80 + (v / 64) % 64) as bv8, (0x80 + v % 64) as bv8]
    else
      [(0xF0 + v / 262144) as bv8, (0x80 + (v / 4096) % 64) as bv8,
       (0x80 + (v / 64) % 64) as bv8, (0x80 + v % 64) as bv8]
  }

  /** `[]byte(s)`: the UTF-8 bytes of a string. */
  function Utf8Encode(s: string): (r: seq<byte>)
    ensures |r| >= |s|
    ensures |s| == 0 <==> |r| == 0
  {
    if |s| == 0 then [] else Utf8Char(s[0]) + Utf8Encode(s[1..])
  }

  /** `len(s)` in Go: the number of bytes of a string, not of characters. */
  function ByteLen(s: string): nat
  {
    |Utf8Encode(s)|
  }

  /** The bytes of a concatenation are the concatenated bytes. */
  lemma {:induction false} Utf8EncodeConcat(a: string, b: string)
    ensures Utf8Encode(a + b) == Utf8Encode(a) + Utf8Encode(b)
    decreases |a|
  {
    if |a| == 0 {
      assert a + b == b;
    } else {
      assert (a + b)[1..] == a[1..] + b;
      Utf8EncodeConcat(a[1..], b);
    }
  }

  /** Cutting characters off a string removes at least one byte each. */
  lemma ByteLenSlice(s: string, i: nat, j: nat)
    requires i <= j <= |s|
    ensures ByteLen(s) >= ByteLen(s[i..j]) + (|s| - (j - i))
  {
    assert s == s[..i] + (s[i..j] + s[j..]);
    Utf8EncodeConcat(s[..i], s[i..j] + s[j..]);
    Utf8EncodeConcat(s[i..j], s[j..]);
  }

  predicate IsAscii(s: string)
  {
    forall i :: 0 <= i < |s| ==> s[i] as int < 0x80
  }

  /** A character outside ASCII costs more than one byte, so `len(s)` in Go
      exceeds the character count exactly when the text is not ASCII. */
  lemma {:induction false} ByteLenAscii(s: string)
    ensures ByteLen(s) == |s| <==> IsAscii(s)
  {
    if |s| > 0 {
      ByteLenAscii(s[1..]);
      assert Utf8Encode(s) == Utf8Char(s[0]) + Utf8Encode(s[1..]);
      if IsAscii(s) {
        assert IsAscii(s[1..]) by {
          forall i | 0 <= i < |s| - 1 ensures s[1..][i] as int < 0x80 {
            assert s[1..][i] == s[i + 1];
          }
        }
      } else if IsAscii(s[1..]) {
        assert !(s[0] as int < 0x80) by {
          if s[0] as int < 0x80 {
            forall i | 0 <= i < |s| ensures s[i] as int < 0x80 {
              if i > 0 { assert s[i] == s[1..][i - 1]; }
            }
          }
        }
      }
    }
  }

  // ---------------------------------------------------------------------------
  // strings.TrimSpace and strings.Join
  // ---------------------------------------------------------------------------

  /** Go's `unicode.IsSpace`: the Latin-1 spaces and the other White_Space
      code points of the Unicode standard. */
  predicate IsSpace(c: char)
  {
    c == '\t' || c == '\n' || c == '\U{B}' || c == '\U{C}' || c == '\r' || c == ' '
    || c == '\U{85}' || c == '\U{A0}' || c == '\U{1680}'
    || ('\U{2000}' <= c <= '\U{200A}')
    || c == '\U{2028}' || c == '\U{2029}' || c == '\U{202F}' || c == '\U{205F}' || c == '\U{3000}'
  }

  /** The index of the first non-space at or after `i`. */
  function TrimStart(s: string, i: nat): (j: nat)
    requires i <= |s|
    ensures i <= j <= |s|
    ensures forall k :: i <= k < j ==> IsSpace(s[k])
    ensures j < |s| ==> !IsSpace(s[j])
    decreases |s| - i
  {
    if i < |s| && IsSpace(s[i]) then TrimStart(s, i + 1) else i
  }

  /** The end of `s[lo..j]` once its trailing spaces are cut off. */
  function TrimEnd(s: string, lo: nat, j: nat): (e: nat)
    requires lo <= j <= |s|
    ensures lo <= e <= j
    ensures forall k :: e <= k < j ==> IsSpace(s[k])
    ensures e > lo ==> !IsSpace(s[e - 1])
    decreases j
  {
    if j > lo && IsSpace(s[j - 1]) then TrimEnd(s, lo, j - 1) else j
  }

  /** `strings.TrimSpace`: the slice of `s` left once its leading and trailing
      spaces are cut off; it neither starts nor ends with a space, and it is
      empty exactly when `s` is all space. */
  function TrimSpace(s: string): (r: string)
    ensures var i := TrimStart(s, 0);
      && i + |r| <= |s| && r == s[i..i + |r|]
      && (forall k :: 0 <= k < i ==> IsSpace(s[k]))
      && (forall k :: i + |r| <= k < |s| ==> IsSpace(s[k]))
    ensures |r| > 0 ==> !IsSpace(r[0]) && !IsSpace(r[|r| - 1])
    ensures |r| == 0 <==> forall k :: 0 <= k < |s| ==> IsSpace(s[k])
  {
    var i := TrimStart(s, 0);
    s[i..TrimEnd(s, i, |s|)]
  }

  /** Trimming a string that has spaces at either end removes bytes. */
  lemma TrimSpaceShortens(s: string)
    requires TrimSpace(s) != s
    ensures ByteLen(s) > ByteLen(TrimSpace(s))
  {
    var r := TrimSpace(s);
    var i := TrimStart(s, 0);
    var j := i + |r|;
    assert r == s[i..j];
    assert j - i < |s|;
    ByteLenSlice(s, i, j);
  }

  /** `strings.Join`: the parts with `sep` between consecutive ones. */
  function Join(parts: seq<string>, sep: string): string
  {
    if |parts| == 0 then ""
    else if |parts| == 1 then parts[0]
    else parts[0] + sep + Join(parts[1..], sep)
  }

  /** `strings.Split` on a one-character separator: the pieces between the
      separators, one more than there are separators. */
  function Split(s: string, sep: char): (r: seq<string>)
    ensures |r| >= 1
    decreases |s|
  {
    if |s| == 0 then [""]
    else
      var rest := Split(s[1..], sep);
      if s[0] == sep then [""] + rest
      else [[s[0]] + rest[0]] + rest[1..]
  }

  /** A string without the separator is one piece. */
  lemma {:induction false} SplitNoSeparator(p: string, sep: char)
    requires sep !in p
    ensures Split(p, sep) == [p]
    decreases |p|
  {
    if |p| > 0 {
      SplitNoSeparator(p[1..], sep);
      assert [p[0]] + p[1..] == p;
    }
  }

  /** Splitting stops at the first separator. */
  lemma {:induction false} SplitFirstPiece(p: string, sep: char, rest: string)
    requires sep !in p
    ensures Split(p + [sep] + rest, sep) == [p] + Split(rest, sep)
    decreases |p|
  {
    var s := p + [sep] + rest;
    if |p| == 0 {
      assert s == [sep] + rest;
      assert s[1..] == rest;
    } else {
      assert s[1..] == p[1..] + [sep] + rest;
      SplitFirstPiece(p[1..], sep, rest);
      assert [p[0]] + p[1..] == p;
    }
  }

  /** Splitting undoes joining when no part holds the separator. */
  lemma {:induction false} SplitJoin(parts: seq<string>, sep: char)
    requires |parts| >= 1
    requires forall k :: 0 <= k < |parts| ==> sep !in parts[k]
    ensures Split(Join(parts, [sep]), sep) == parts
    decreases |parts|
  {
    if |parts| == 1 {
      SplitNoSeparator(parts[0], sep);
    } else {
      SplitJoin(parts[1..], sep);
      SplitFirstPiece(parts[0], sep, Join(parts[1..], [sep]));
      assert [parts[0]] + parts[1..] == parts;
    }
  }
}
