/** The bounded copy of UTF-8 text (src/lib/strlcpy_utf8/strlcpy_utf8.hpp:7-42) and its two uses: the compiler packs a
    status message into words (src/lib/xml_compiler/src/xml_compiler+remapclasses_initialize_vector.cpp:89-105), and the
    kernel copies it into a buffer (src/core/kext/RemapClass.cpp:284-289).

    For text that is valid under section 3 of RFC 3629 the copy is the longest run of whole characters that fits.
 */
module Utf8Copy {
  import opened Wrappers

  type Byte = b: nat | b < 256

  const STATUS_MESSAGE_MAXLEN: nat := 128

  // ---------------------------------------------------------------------------------------------
  // Valid text

  predicate Tail(b: Byte) { 0x80 <= b < 0xC0 }

  /** The length of the valid character at the front, 0 if there is none. */
  function Character(s: seq<Byte>): (n: nat)
    ensures n <= |s| && n <= 4
  {
    if s == [] then 0
    else if s[0] < 0x80 then 1
    else if |s| >= 2 && 0xC2 <= s[0] < 0xE0 && Tail(s[1]) then 2
    else if |s| >= 3 && 0xE0 <= s[0] < 0xF0 && Tail(s[1]) && Tail(s[2]) &&
            (s[0] == 0xE0 ==> s[1] >= 0xA0) && (s[0] == 0xED ==> s[1] < 0xA0) then 3
    else if |s| >= 4 && 0xF0 <= s[0] <= 0xF4 && Tail(s[1]) && Tail(s[2]) && Tail(s[3]) &&
            (s[0] == 0xF0 ==> s[1] >= 0x90) && (s[0] == 0xF4 ==> s[1] < 0x90) then 4
    else 0
  }

  predicate Utf8(s: seq<Byte>) {
    s == [] || (Character(s) > 0 && Utf8(s[Character(s)..]))
  }

  /** `k` is the end of some number of whole characters at the front. */
  predicate Boundary(s: seq<Byte>, k: nat)
    decreases |s|
  {
    k == 0 || (0 < Character(s) <= k && Boundary(s[Character(s)..], k - Character(s)))
  }

  // ---------------------------------------------------------------------------------------------
  // The copy

  /** The step of the scan, from the bits of a lead byte alone; 0 stops it. */
  function Step(b: Byte): nat {
    if b < 0x80 then 1
    else if 0xC0 <= b < 0xE0 then 2
    else if 0xE0 <= b < 0xF0 then 3
    else if 0xF0 <= b < 0xF8 then 4
    else 0
  }

  /** Where the scan of the first `n` bytes cuts, from `i` on. */
  function Cut(s: seq<Byte>, n: nat, i: nat): (r: nat)
    requires i <= n <= |s|
    ensures i <= r <= n
    decreases n - i
  {
    if i == n || Step(s[i]) == 0 || i + Step(s[i]) > n then i else Cut(s, n, i + Step(s[i]))
  }

  function Copied(s: seq<Byte>, size: nat): (r: seq<Byte>)
    requires size > 0
    ensures |r| < size && |r| <= |s| && r == s[..|r|]
  {
    var n := if |s| < size then |s| else size - 1;
    s[..Cut(s, n, 0)]
  }

  /** What a buffer holds as a C string. */
  function CString(bytes: seq<Byte>): seq<Byte> {
    if bytes == [] || bytes[0] == 0 then [] else [bytes[0]] + CString(bytes[1..])
  }

  ghost predicate NulFree(s: seq<Byte>) { forall i :: 0 <= i < |s| ==> s[i] != 0 }

  lemma {:induction false} CStringOf(s: seq<Byte>, rest: seq<Byte>)
    requires NulFree(s) && rest != [] && rest[0] == 0
    ensures CString(s + rest) == s
  {
    if s == [] {
      assert s + rest == rest;
    } else {
      CStringOf(s[1..], rest);
      assert (s + rest)[1..] == s[1..] + rest;
    }
  }

  /** The library's strlcpy: as much as fits, and a terminator. */
  method BoundedCopy(dst: array<Byte>, src: seq<Byte>, size: nat) returns (len: nat)
    requires 0 < size <= dst.Length
    modifies dst
    ensures len == (if |src| < size then |src| else size - 1) && dst[..len] == src[..len] && dst[len] == 0
    ensures dst[len + 1..] == old(dst[..])[len + 1..]
  {
    len := 0;
    while len < |src| && len < size - 1
      invariant len <= |src| && len < size
      invariant dst[..len] == src[..len]
      invariant dst[len..] == old(dst[..])[len..]
    {
      dst[len] := src[len];
      len := len + 1;
    }
    dst[len] := 0;
  }

  /** strlcpy_utf8::strlcpy.  `src` are the bytes before its terminator; None stands for the error return. */
  method Strlcpy(dst: array<Byte>, src: seq<Byte>, size: nat) returns (r: Option<nat>)
    requires size <= dst.Length && NulFree(src)
    modifies dst
    ensures size == 0 ==> r.None? && dst[..] == old(dst[..])
    ensures size > 0 ==> r == Some(|src|) && CString(dst[..]) == Copied(src, size)
  {
    if size == 0 {
      return None;
    }
    var len := BoundedCopy(dst, src, size);
    var i, previous := 0, 0;
    while true
      invariant previous == i <= len
      invariant Cut(src, len, 0) == Cut(src, len, i)
      decreases len - i
    {
      previous := i;
      assert i < len ==> dst[..len][i] == src[..len][i];
      var step := Step(dst[i]);
      if step == 0 {
        break;
      }
      if i + step > len {
        break;
      }
      i := i + step;
      previous := i;
    }
    ghost var before := dst[..];
    dst[previous] := 0;
    assert dst[..] == src[..previous] + ([0] + before[previous + 1..]) by {
      assert before[..len] == src[..len];
      assert dst[..previous] == before[..len][..previous];
    }
    CStringOf(src[..previous], [0] + before[previous + 1..]);
    r := Some(|src|);
  }

  // ---------------------------------------------------------------------------------------------
  // The longest run of whole characters

  lemma CharacterStep(s: seq<Byte>)
    requires Character(s) > 0
    ensures Step(s[0]) == Character(s)
  {
  }

  lemma BoundaryStep(t: seq<Byte>, k: nat)
    requires Character(t) > 0
    ensures k == 0 || !Boundary(t, k) || (Character(t) <= k && Boundary(t[Character(t)..], k - Character(t)))
    ensures Boundary(t[Character(t)..], k) ==> Boundary(t, Character(t) + k)
  {
  }

  lemma Utf8Step(t: seq<Byte>)
    requires Utf8(t) && t != []
    ensures Character(t) > 0 && Utf8(t[Character(t)..]) && Step(t[0]) == Character(t)
  {
    CharacterStep(t);
  }

  lemma CutStep(s: seq<Byte>, n: nat, i: nat, c: nat)
    requires i < n <= |s| && Step(s[i]) == c && 0 < c && i + c <= n
    ensures Cut(s, n, i) == Cut(s, n, i + c)
  {
  }

  lemma AfterFirst(t: seq<Byte>) returns (c: nat, rest: seq<Byte>)
    requires Utf8(t) && t != []
    ensures 0 < c <= |t| && c == Step(t[0]) && rest == t[c..] && Utf8(rest)
    ensures forall k: nat :: Boundary(rest, k) ==> Boundary(t, c + k)
  {
    Utf8Step(t);
    c := Character(t);
    rest := t[c..];
    forall k: nat | Boundary(rest, k) ensures Boundary(t, c + k) {
      BoundaryStep(t, k);
    }
  }

  lemma {:induction false} CutBoundary(s: seq<Byte>, n: nat, i: nat, t: seq<Byte>)
    requires i <= n <= |s| && t == s[i..] && Utf8(t)
    ensures Boundary(t, Cut(s, n, i) - i)
    decreases n - i
  {
    if i < n {
      var c, rest := AfterFirst(t);
      assert s[i] == t[0];
      if i + c <= n {
        CutStep(s, n, i, c);
        CutBoundary(s, n, i + c, rest);
        assert Boundary(t, c + (Cut(s, n, i + c) - (i + c)));
      }
    }
  }

  lemma {:induction false} CutLongest(s: seq<Byte>, n: nat, i: nat, k: nat, t: seq<Byte>)
    requires i <= n <= |s| && t == s[i..] && Utf8(t) && Boundary(t, k) && i + k <= n
    ensures i + k <= Cut(s, n, i)
    decreases n - i
  {
    if k > 0 {
      var c := FirstCharacter(t, k);
      assert s[i] == t[0];
      CutStep(s, n, i, c);
      CutLongest(s, n, i + c, k - c, t[c..]);
    }
  }

  lemma FirstCharacter(t: seq<Byte>, k: nat) returns (c: nat)
    requires Utf8(t) && Boundary(t, k) && 0 < k <= |t|
    ensures 0 < c <= k && c <= |t| && c == Step(t[0]) && Utf8(t[c..]) && Boundary(t[c..], k - c)
  {
    Utf8Step(t);
    c := Character(t);
    BoundaryStep(t, k);
  }

  /** Valid text is cut at the last character boundary that fits. */
  lemma CopiesWholeCharacters(s: seq<Byte>, size: nat)
    requires Utf8(s) && size > 0
    ensures Boundary(s, |Copied(s, size)|)
    ensures forall k: nat :: Boundary(s, k) && k < size && k <= |s| ==> k <= |Copied(s, size)|
  {
    var n := if |s| < size then |s| else size - 1;
    assert s[0..] == s;
    CutBoundary(s, n, 0, s);
    forall k: nat | Boundary(s, k) && k < size && k <= |s| ensures k <= |Copied(s, size)| {
      CutLongest(s, n, 0, k, s);
    }
  }

  /** For any bytes, valid or not, the copy ends where no more bytes fit, at a byte that begins no character, or at a
      character that does not fit. */
  lemma {:induction false} CutStops(s: seq<Byte>, n: nat, i: nat)
    requires i <= n <= |s|
    ensures var c := Cut(s, n, i);
            c == n || 0x80 <= s[c] < 0xC0 || s[c] >= 0xF8 ||
            (s[c] >= 0xC0 && c + 1 >= n) || (s[c] >= 0xE0 && c + 2 >= n) || (s[c] >= 0xF0 && c + 3 >= n)
    decreases n - i
  {
    if i < n && Step(s[i]) > 0 && i + Step(s[i]) <= n {
      CutStops(s, n, i + Step(s[i]));
    }
  }

  lemma {:induction false} WholeIsBoundary(s: seq<Byte>)
    requires Utf8(s)
    ensures Boundary(s, |s|)
  {
    if s != [] {
      WholeIsBoundary(s[Character(s)..]);
    }
  }

  /** Valid text that fits is copied whole. */
  lemma CopiesAllThatFits(s: seq<Byte>, size: nat)
    requires Utf8(s) && |s| < size
    ensures Copied(s, size) == s
  {
    CopiesWholeCharacters(s, size);
    WholeIsBoundary(s);
  }

  // ---------------------------------------------------------------------------------------------
  // Text in words

  function Word(a: Byte, b: Byte, c: Byte, d: Byte): nat { a + 256 * (b + 256 * (c + 256 * d)) }

  /** Bytes as little-endian words. */
  function Pack(bytes: seq<Byte>): seq<nat> {
    if |bytes| < 4 then [] else [Word(bytes[0], bytes[1], bytes[2], bytes[3])] + Pack(bytes[4..])
  }

  function Unpack(words: seq<nat>): seq<Byte> {
    if words == [] then [] else Bytes(words[0]) + Unpack(words[1..])
  }

  function Bytes(w: nat): seq<Byte> {
    [w % 256, w / 256 % 256, w / 256 / 256 % 256, w / 256 / 256 / 256 % 256]
  }

  lemma WordBytes(a: Byte, b: Byte, c: Byte, d: Byte)
    ensures Bytes(Word(a, b, c, d)) == [a, b, c, d]
  {
    var w := Word(a, b, c, d);
    assert w % 256 == a && w / 256 == b + 256 * (c + 256 * d);
    assert w / 256 % 256 == b && w / 256 / 256 == c + 256 * d;
  }

  lemma {:induction false} UnpackPack(bytes: seq<Byte>)
    requires |bytes| % 4 == 0
    ensures Unpack(Pack(bytes)) == bytes && |Pack(bytes)| == |bytes| / 4
  {
    if bytes != [] {
      UnpackPack(bytes[4..]);
      WordBytes(bytes[0], bytes[1], bytes[2], bytes[3]);
      assert Pack(bytes)[1..] == Pack(bytes[4..]);
      assert bytes == [bytes[0], bytes[1], bytes[2], bytes[3]] + bytes[4..];
    }
  }

  lemma PackMore(bytes: seq<Byte>, k: nat)
    requires k + 4 <= |bytes|
    ensures Pack(bytes[k..]) == [Word(bytes[k], bytes[k + 1], bytes[k + 2], bytes[k + 3])] + Pack(bytes[k + 4..])
  {
    assert bytes[k..][4..] == bytes[k + 4..];
  }

  method PackBuffer(buffer: array<Byte>, length: nat) returns (words: seq<nat>)
    requires buffer.Length == 4 * length
    ensures words == Pack(buffer[..])
  {
    words := [];
    ghost var bytes := buffer[..];
    assert bytes[0..] == bytes;
    for i := 0 to length
      invariant words + Pack(bytes[4 * i..]) == Pack(bytes)
    {
      PackMore(bytes, 4 * i);
      words := words + [Word(buffer[4 * i], buffer[4 * i + 1], buffer[4 * i + 2], buffer[4 * i + 3])];
    }
  }

  /** push_string: the words for a string. */
  method PushString(s: seq<Byte>) returns (words: seq<nat>)
    requires NulFree(s)
    ensures |words| == |s| / 4 + 1
    ensures Utf8(s) ==> CString(Unpack(words)) == s
  {
    var length := |s| / 4 + 1;
    var buffer := new Byte[4 * length](_ => 0);
    var r := Strlcpy(buffer, s, 4 * length);
    if Utf8(s) {
      CopiesAllThatFits(s, 4 * length);
    }
    UnpackPack(buffer[..]);
    words := PackBuffer(buffer, length);
  }

  /** From the compiler to the kernel's buffer: the longest run of whole characters of the message that fits. */
  method SendMessage(s: seq<Byte>) returns (shown: seq<Byte>)
    requires NulFree(s) && Utf8(s)
    ensures |shown| < STATUS_MESSAGE_MAXLEN && |shown| <= |s| && shown == s[..|shown|] && Boundary(s, |shown|)
    ensures forall k: nat :: Boundary(s, k) && k < STATUS_MESSAGE_MAXLEN && k <= |s| ==> k <= |shown|
  {
    var words := PushString(s);
    var buffer := new Byte[STATUS_MESSAGE_MAXLEN](_ => 0);
    var r := Strlcpy(buffer, CString(Unpack(words)), STATUS_MESSAGE_MAXLEN);
    CopiesWholeCharacters(s, STATUS_MESSAGE_MAXLEN);
    shown := CString(buffer[..]);
  }
}
