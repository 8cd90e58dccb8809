/** The preview of an unexpected answer's body (src/bin/kwp/background/forward.rs): text is
    cut by bytes, which panics in the middle of a character. */
module Preview {
  import opened Wrappers
  import opened RetryAfter

  const MAX_BODY: nat := 512

  type Octet = n: int | 0 <= n < 256

  predicate IsContinuation(octet: Octet) {
    0x80 <= octet < 0xC0
  }

  /** UTF-8 as in section 3 of RFC 3629. */
  function Encode(c: char): (r: seq<Octet>)
    ensures |r| == if c as int < 0x80 then 1 else if c as int < 0x800 then 2 else if c as int < 0x10000 then 3 else 4
    ensures forall i :: 0 <= i < |r| ==> (0x80 <= r[i] < 0xC0 <==> i > 0)
  {
    var n := c as int;
    if n < 0x80 then [n]
    else if n < 0x800 then [0xC0 + n / 0x40, 0x80 + n % 0x40]
    else if n < 0x10000 then [0xE0 + n / 0x1000, 0x80 + n / 0x40 % 0x40, 0x80 + n % 0x40]
    else [0xF0 + n / 0x40000, 0x80 + n / 0x1000 % 0x40, 0x80 + n / 0x40 % 0x40, 0x80 + n % 0x40]
  }

  function Utf8(s: string): seq<Octet> {
    if s == [] then [] else Encode(s[0]) + Utf8(s[1..])
  }

  /** The bits of a character are those its bytes carry after their marks. */
  lemma {:induction false} EncodeCarries(c: char)
    ensures var r: seq<int> := Encode(c);
            c as int ==
              if |r| == 1 then r[0]
              else if |r| == 2 then 0x40 * (r[0] - 0xC0) + r[1] - 0x80
              else if |r| == 3 then 0x1000 * (r[0] - 0xE0) + 0x40 * (r[1] - 0x80) + r[2] - 0x80
              else 0x40000 * (r[0] - 0xF0) + 0x1000 * (r[1] - 0x80) + 0x40 * (r[2] - 0x80) + r[3] - 0x80
  {
    var n := c as int;
    if n < 0x80 {
    } else if n < 0x800 {
      assert n == 0x40 * (n / 0x40) + n % 0x40;
    } else {
      SixBits(n);
    }
  }

  lemma {:induction false} SixBits(n: nat)
    ensures n == 0x1000 * (n / 0x1000) + 0x40 * (n / 0x40 % 0x40) + n % 0x40
    ensures n == 0x40000 * (n / 0x40000) + 0x1000 * (n / 0x1000 % 0x40) + 0x40 * (n / 0x40 % 0x40) + n % 0x40
  {
  }

  /** `str::is_char_boundary`. */
  predicate IsBoundary(s: string, at: nat) {
    var text := Utf8(s);
    at == 0 || at == |text| || (at < |text| && !IsContinuation(text[at]))
  }

  /** The characters that end within so many bytes. */
  function Within(s: string, size: nat): string {
    if s == [] || size < |Encode(s[0])| then [] else [s[0]] + Within(s[1..], size - |Encode(s[0])|)
  }

  /** `&s[..size]`. */
  function Slice(s: string, size: nat): Result<string, Panic> {
    if IsBoundary(s, size) then Success(Within(s, size)) else Failure(NotACharBoundary)
  }

  /** The text goes on in the middle of a character where the preview ends. */
  predicate CutsCharacter(body: string) {
    MAX_BODY < |Utf8(body)| && IsContinuation(Utf8(body)[MAX_BODY])
  }

  function ReadBodyPreview(body: string): Result<string, Panic> {
    var size := |Utf8(body)|;
    if size > MAX_BODY then
      var cut :- Slice(body, MAX_BODY);
      Success(cut + "\U{2026}(" + Decimal(size) + " bytes total)")
    else Success(body)
  }

  lemma {:induction false} Utf8Joins(s: string, t: string)
    ensures Utf8(s + t) == Utf8(s) + Utf8(t)
  {
    if s == [] {
      assert s + t == t;
    } else {
      assert (s + t)[1..] == s[1..] + t;
      Utf8Joins(s[1..], t);
    }
  }

  /** The characters within some bytes take up just these bytes exactly if the next byte
      starts a character. */
  lemma {:induction false} WithinIsExact(s: string, size: nat)
    requires size <= |Utf8(s)|
    ensures Within(s, size) <= s && |Utf8(Within(s, size))| <= size
    ensures Utf8(Within(s, size)) <= Utf8(s)
    ensures IsBoundary(s, size) <==> |Utf8(Within(s, size))| == size
  {
    if s != [] {
      var first := Encode(s[0]);
      if size < |first| {
        assert Utf8(s)[size] == first[size];
      } else {
        WithinIsExact(s[1..], size - |first|);
        assert Within(s, size)[1..] == Within(s[1..], size - |first|);
        assert size < |Utf8(s)| ==> Utf8(s)[size] == Utf8(s[1..])[size - |first|];
      }
    }
  }

  /** Where some prefix of the characters ends, the next byte starts a character. */
  lemma {:induction false} PrefixEndsAtBoundary(s: string, j: nat)
    requires j <= |s|
    ensures IsBoundary(s, |Utf8(s[..j])|)
  {
    Utf8Joins(s[..j], s[j..]);
    assert s[..j] + s[j..] == s;
    if j < |s| {
      assert Utf8(s)[|Utf8(s[..j])|] == Encode(s[j])[0];
    }
  }

  /** The preview of a body: the body itself if it is short, and otherwise the text of its
      first 512 bytes with its size. */
  ghost predicate IsPreview(body: string, preview: string) {
    if |Utf8(body)| <= 512 then preview == body
    else
      exists cut :: Utf8(cut) == Utf8(body)[..512]
        && preview == cut + "\U{2026}(" + Decimal(|Utf8(body)|) + " bytes total)"
  }

  /** The preview of a long body panics exactly if no character ends with its 512th byte, that
      is, if byte 512 continues one. */
  lemma {:induction false} PreviewIsExact(body: string)
    ensures ReadBodyPreview(body).Failure? <==>
              512 < |Utf8(body)| && forall j :: 0 <= j <= |body| ==> |Utf8(body[..j])| != 512
    ensures ReadBodyPreview(body).Failure? <==> 512 < |Utf8(body)| && 0x80 <= Utf8(body)[512] < 0xC0
    ensures ReadBodyPreview(body).Failure? <==> CutsCharacter(body)
    ensures ReadBodyPreview(body).Success? ==> IsPreview(body, ReadBodyPreview(body).value)
  {
    if MAX_BODY < |Utf8(body)| {
      WithinIsExact(body, MAX_BODY);
      var cut := Within(body, MAX_BODY);
      assert cut == body[..|cut|];
      forall j | 0 <= j <= |body| && |Utf8(body[..j])| == MAX_BODY ensures IsBoundary(body, MAX_BODY) {
        PrefixEndsAtBoundary(body, j);
      }
      assert IsBoundary(body, MAX_BODY) ==> Utf8(cut) == Utf8(body)[..512];
    }
  }

  /** Any text of 511 bytes followed by a character outside ASCII makes it panic. */
  lemma {:induction false} CutCharacterPanics(before: string, c: char, after: string)
    requires |Utf8(before)| == MAX_BODY - 1 && c as int >= 0x80
    ensures ReadBodyPreview(before + [c] + after).Failure?
  {
    var body := before + [c] + after;
    assert body == before + ([c] + after) && ([c] + after)[1..] == after;
    Utf8Joins(before, [c] + after);
    assert Utf8([c] + after) == Encode(c) + Utf8(after);
    assert Utf8(body)[MAX_BODY] == Encode(c)[1];
    PreviewIsExact(body);
  }
}
