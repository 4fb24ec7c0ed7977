/** Query escaping of bytes, as Go's `url.QueryEscape` and `url.QueryUnescape` do it.

    The escaped text is a code: every byte becomes a codeword, and a '%' can only be the
    first character of one.  That is why text can be edited while it is escaped. */
module Escaping {
  import opened Text

  /** A byte, written as the character with that code. */
  type Byte = c: char | c <= '\U{00FF}' witness 'a'

  type Bytes = seq<Byte>

  const HEX: string := "0123456789ABCDEF"

  predicate Unreserved(c: char) {
    'a' <= c <= 'z' || 'A' <= c <= 'Z' || '0' <= c <= '9' || c == '-' || c == '_' || c == '.' || c == '~'
  }

  function EscapeByte(c: Byte): (r: Bytes)
    ensures r != []
    ensures r[0] == '%' <==> !Unreserved(c) && c != ' '
  {
    if Unreserved(c) then [c]
    else if c == ' ' then ['+']
    else ['%', HEX[c as int / 16], HEX[c as int % 16]]
  }

  function Escape(s: Bytes): Bytes {
    if s == [] then [] else EscapeByte(s[0]) + Escape(s[1..])
  }

  function HexValue(c: char): (r: int)
    ensures -1 <= r < 16
  {
    if '0' <= c <= '9' then c as int - '0' as int
    else if 'a' <= c <= 'f' then c as int - 'a' as int + 10
    else if 'A' <= c <= 'F' then c as int - 'A' as int + 10
    else -1
  }

  function Unescape(s: Bytes): Option<Bytes> {
    if s == [] then Some([])
    else if s[0] == '%' then
      if |s| < 3 || HexValue(s[1]) < 0 || HexValue(s[2]) < 0 then None
      else
        var rest := Unescape(s[3..]);
        if rest.None? then None
        else Some([(HexValue(s[1]) * 16 + HexValue(s[2])) as char] + rest.value)
    else
      var rest := Unescape(s[1..]);
      if rest.None? then None
      else Some([if s[0] == '+' then ' ' else s[0]] + rest.value)
  }

  // ----- Codewords -----

  lemma HexDigits(n: int)
    requires 0 <= n < 16
    ensures HexValue(HEX[n]) == n && HEX[n] != '%' && HEX[n] != ';' && HEX[n] != ','
  {
  }

  /** Only the first character of a codeword can be '%'. */
  lemma PercentFirst(c: Byte, i: nat)
    requires i < |EscapeByte(c)| && EscapeByte(c)[i] == '%'
    ensures i == 0
  {
    HexDigits(c as int / 16);
    HexDigits(c as int % 16);
  }

  lemma {:induction false} UnescapeByte(c: Byte, rest: Bytes)
    requires Unescape(rest).Some?
    ensures Unescape(EscapeByte(c) + rest) == Some([c] + Unescape(rest).value)
  {
    var e := EscapeByte(c);
    assert (e + rest)[|e|..] == rest;
    if e[0] == '%' {
      HexDigits(c as int / 16);
      HexDigits(c as int % 16);
      assert (e + rest)[..3] == e;
      assert c == ((c as int / 16) * 16 + c as int % 16) as char;
    }
  }

  /** No codeword is the beginning of another. */
  lemma {:induction false} CodewordsDiffer(a: Byte, b: Byte, x: Bytes, y: Bytes)
    requires EscapeByte(a) + x == EscapeByte(b) + y
    ensures a == b && x == y
  {
    var s, t := EscapeByte(a) + x, EscapeByte(b) + y;
    assert s[0] == EscapeByte(a)[0] && t[0] == EscapeByte(b)[0];
    assert |EscapeByte(a)| == |EscapeByte(b)|;
    if EscapeByte(a)[0] == '%' {
      HexDigits(a as int / 16);
      HexDigits(a as int % 16);
      HexDigits(b as int / 16);
      HexDigits(b as int % 16);
      assert s[1] == t[1] && s[2] == t[2];
      assert a as int == (a as int / 16) * 16 + a as int % 16;
      assert b as int == (b as int / 16) * 16 + b as int % 16;
    }
    assert x == s[|EscapeByte(a)|..] == t[|EscapeByte(b)|..] == y;
  }

  // ----- The round trip -----

  lemma {:induction false} EscapeRoundTrip(s: Bytes)
    ensures Unescape(Escape(s)) == Some(s)
  {
    if s != [] {
      assert s == [s[0]] + s[1..];
      EscapeRoundTrip(s[1..]);
      UnescapeByte(s[0], Escape(s[1..]));
    }
  }

  /** Escaped text is made of unreserved characters, '+', '%' and hexadecimal digits. */
  lemma {:induction false} EscapeAlphabet(s: Bytes)
    ensures ';' !in Escape(s) && ',' !in Escape(s)
  {
    if s != [] {
      EscapeAlphabet(s[1..]);
      HexDigits(s[0] as int / 16);
      HexDigits(s[0] as int % 16);
      assert ';' !in EscapeByte(s[0]) && ',' !in EscapeByte(s[0]);
    }
  }

  /** Letters, digits and four marks stand for themselves. */
  lemma {:induction false} EscapePlain(s: Bytes)
    requires forall i :: 0 <= i < |s| ==>
      'a' <= s[i] <= 'z' || 'A' <= s[i] <= 'Z' || '0' <= s[i] <= '9' || s[i] in {'-', '_', '.', '~'}
    ensures Escape(s) == s
  {
    if s != [] {
      EscapePlain(s[1..]);
      assert Unreserved(s[0]);
      assert s == [s[0]] + s[1..];
    }
  }

  // ----- Editing escaped text -----

  lemma {:induction false} EscapeConcat(a: Bytes, b: Bytes)
    ensures Escape(a + b) == Escape(a) + Escape(b)
  {
    if a == [] {
      assert a + b == b;
    } else {
      assert (a + b)[1..] == a[1..] + b;
      EscapeConcat(a[1..], b);
    }
  }

  /** Where the codeword of `s[j]` starts. */
  function Offset(s: Bytes, j: nat): nat
    requires j <= |s|
  {
    |Escape(s[..j])|
  }

  lemma {:induction false} SplitAt(s: Bytes, j: nat)
    requires j <= |s|
    ensures Escape(s) == Escape(s[..j]) + Escape(s[j..])
    ensures Offset(s, j) <= |Escape(s)| && Escape(s)[Offset(s, j)..] == Escape(s[j..])
  {
    assert s == s[..j] + s[j..];
    EscapeConcat(s[..j], s[j..]);
  }

  lemma {:induction false} OffsetGrows(s: Bytes, i: nat, j: nat)
    requires i < j <= |s|
    ensures Offset(s, i) < Offset(s, j)
  {
    assert s[..j] == s[..i] + s[i..j];
    EscapeConcat(s[..i], s[i..j]);
    assert s[i..j] != [];
  }

  /** Every '%' in escaped text starts a codeword. */
  lemma {:induction false} PercentAligned(s: Bytes, i: nat) returns (j: nat)
    requires i < |Escape(s)| && Escape(s)[i] == '%'
    ensures j < |s| && Offset(s, j) == i
  {
    var first := EscapeByte(s[0]);
    if i < |first| {
      PercentFirst(s[0], i);
      j := 0;
    } else {
      assert Escape(s) == first + Escape(s[1..]);
      assert Escape(s)[i] == Escape(s[1..])[i - |first|];
      var k := PercentAligned(s[1..], i - |first|);
      j := k + 1;
      assert s[..j] == [s[0]] + s[1..][..k];
      assert s[..j][1..] == s[1..][..k];
    }
  }

  /** An escaped text begins with an escaped pattern only if the text begins with the pattern. */
  lemma {:induction false} PrefixDecodes(p: Bytes, t: Bytes, rest: Bytes)
    requires Escape(t) == Escape(p) + rest
    ensures p <= t
  {
    if p != [] {
      var tail := Escape(p[1..]) + rest;
      assert Escape(t) == EscapeByte(p[0]) + tail;
      CodewordsDiffer(p[0], t[0], tail, Escape(t[1..]));
      PrefixDecodes(p[1..], t[1..], rest);
      assert p == [p[0]] + p[1..] && t == [t[0]] + t[1..];
    }
  }

  lemma {:induction false} PrefixAgrees(p: Bytes, t: Bytes)
    ensures Escape(p) <= Escape(t) <==> p <= t
  {
    if p <= t {
      assert t == p + t[|p|..];
      EscapeConcat(p, t[|p|..]);
    }
    if Escape(p) <= Escape(t) {
      PrefixDecodes(p, t, Escape(t)[|Escape(p)|..]);
    }
  }

  lemma OccursAtPrefix(s: string, p: string, k: nat)
    requires k <= |s|
    ensures OccursAt(s, p, k) <==> p <= s[k..]
  {
    if k + |p| <= |s| {
      assert s[k..][..|p|] == s[k..k + |p|];
    }
  }

  /** An occurrence in the text is an occurrence at the same place of the escaped text. */
  lemma {:induction false} OccurrencesAgree(s: Bytes, p: Bytes, j: nat)
    requires j <= |s|
    ensures OccursAt(Escape(s), Escape(p), Offset(s, j)) <==> OccursAt(s, p, j)
  {
    SplitAt(s, j);
    OccursAtPrefix(Escape(s), Escape(p), Offset(s, j));
    OccursAtPrefix(s, p, j);
    PrefixAgrees(p, s[j..]);
  }

  predicate StartsEscaped(p: Bytes) {
    p != [] && EscapeByte(p[0])[0] == '%'
  }

  lemma {:induction false} OccurrenceAligned(s: Bytes, p: Bytes, i: nat) returns (j: nat)
    requires StartsEscaped(p) && OccursAt(Escape(s), Escape(p), i)
    ensures j <= |s| && Offset(s, j) == i && OccursAt(s, p, j)
  {
    assert Escape(s)[i] == Escape(s)[i..i + |Escape(p)|][0] == '%';
    j := PercentAligned(s, i);
    OccurrencesAgree(s, p, j);
  }

  lemma {:induction false} NoOccurrence(s: Bytes, p: Bytes)
    requires StartsEscaped(p) && Index(s, p).None?
    ensures Index(Escape(s), Escape(p)).None?
  {
    if Index(Escape(s), Escape(p)).Some? {
      IndexFound(Escape(s), Escape(p));
      var j := OccurrenceAligned(s, p, Index(Escape(s), Escape(p)).value);
      IndexNotFound(s, p, j);
    }
  }

  /** The first occurrence in the escaped text is the escaped first occurrence. */
  lemma {:induction false} FirstOccurrence(s: Bytes, p: Bytes)
    requires StartsEscaped(p) && Index(s, p).Some?
    ensures Index(s, p).value <= |s|
    ensures Index(Escape(s), Escape(p)) == Some(Offset(s, Index(s, p).value))
  {
    IndexFound(s, p);
    var k := Index(s, p).value;
    OccurrencesAgree(s, p, k);
    forall i: nat | i < Offset(s, k) ensures !OccursAt(Escape(s), Escape(p), i) {
      if OccursAt(Escape(s), Escape(p), i) {
        NotEarlier(s, p, k, i);
      }
    }
    IndexIs(Escape(s), Escape(p), Offset(s, k));
  }

  lemma {:induction false} NotEarlier(s: Bytes, p: Bytes, k: nat, i: nat)
    requires StartsEscaped(p) && OccursAt(s, p, k)
    requires forall j :: 0 <= j < k ==> !OccursAt(s, p, j)
    requires OccursAt(Escape(s), Escape(p), i)
    ensures Offset(s, k) <= i
  {
    var j := OccurrenceAligned(s, p, i);
    if k < j {
      OffsetGrows(s, k, j);
    }
  }

  /** The bytes `s` with the `n` at `k` replaced by `q`. */
  function Spliced(s: Bytes, k: nat, n: nat, q: Bytes): (r: Bytes)
    requires k + n <= |s|
    ensures r == Splice(s, k, n, q)
  {
    s[..k] + q + s[k + n..]
  }

  /** Cutting out an occurrence and cutting out its escaped form are the same. */
  lemma {:induction false} EditAround(s: Bytes, p: Bytes, q: Bytes, k: nat)
    requires OccursAt(s, p, k)
    ensures Offset(s, k) + |Escape(p)| <= |Escape(s)|
    ensures Splice(Escape(s), Offset(s, k), |Escape(p)|, Escape(q)) == Escape(Spliced(s, k, |p|, q))
  {
    var before, after := s[..k], s[k + |p|..];
    SplitAround(s, p, k);
    SpliceMiddle(Escape(before), Escape(p), Escape(after), Escape(q));
    EscapeConcat(before, q);
    EscapeConcat(before + q, after);
  }

  lemma {:induction false} SplitAround(s: Bytes, p: Bytes, k: nat)
    requires OccursAt(s, p, k)
    ensures Escape(s) == Escape(s[..k]) + Escape(p) + Escape(s[k + |p|..])
  {
    var before, after := s[..k], s[k + |p|..];
    assert s == before + p + after by {
      assert s[k..k + |p|] == p;
    }
    EscapeConcat(before + p, after);
    EscapeConcat(before, p);
  }

  /** The bytes `s` with the first `p` replaced by `q`. */
  function Edited(s: Bytes, p: Bytes, q: Bytes): Bytes {
    if Index(s, p).None? then s
    else
      IndexFound(s, p);
      Spliced(s, Index(s, p).value, |p|, q)
  }

  lemma {:induction false} EditedReplacesFirst(s: Bytes, p: Bytes, q: Bytes)
    ensures Edited(s, p, q) == ReplaceFirst(s, p, q)
  {
  }

  /** Replacing inside escaped text is the same as replacing inside the text. */
  lemma {:induction false} EditEscaped(s: Bytes, p: Bytes, q: Bytes)
    requires StartsEscaped(p)
    ensures ReplaceFirst(Escape(s), Escape(p), Escape(q)) == Escape(Edited(s, p, q))
  {
    if Index(s, p).None? {
      NoOccurrence(s, p);
    } else {
      IndexFound(s, p);
      FirstOccurrence(s, p);
      EditAround(s, p, q, Index(s, p).value);
    }
  }
}
