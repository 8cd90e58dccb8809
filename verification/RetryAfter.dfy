/** The delta-seconds form of `Retry-After` (section 10.2.3 of RFC 9110), as
    `parse_retry_after` in src/lib/domain/webhook/backoff.rs reads it. */
module RetryAfter {
  import opened Wrappers
  import opened Backoff

  predicate IsSpace(c: char) {
    c == ' ' || c == '\t'
  }

  predicate IsDigit(c: char) {
    '0' <= c <= '9'
  }

  function TrimStart(s: string): string {
    if s != "" && IsSpace(s[0]) then TrimStart(s[1..]) else s
  }

  function TrimEnd(s: string): string {
    if s != "" && IsSpace(s[|s| - 1]) then TrimEnd(s[..|s| - 1]) else s
  }

  function Trim(s: string): string {
    TrimEnd(TrimStart(s))
  }

  /** One digit after another, giving up on anything else and as soon as 64 bits overflow. */
  function ParseDigits(s: string, sofar: nat): Option<nat> {
    if s == "" then Some(sofar)
    else if !IsDigit(s[0]) then None
    else
      var next := 10 * sofar + (s[0] - '0') as nat;
      if next >= TWO_TO_64 then None else ParseDigits(s[1..], next)
  }

  /** `str::parse::<u64>`, which allows a plus sign. */
  function ParseU64(s: string): Option<nat> {
    if s == "" || s == "+" then None
    else if s[0] == '+' then ParseDigits(s[1..], 0)
    else ParseDigits(s, 0)
  }

  function Parse(value: string): Option<nat> {
    ParseU64(Trim(value))
  }

  // ---- what it reads ----

  predicate AreDigits(s: string) {
    forall i :: 0 <= i < |s| ==> IsDigit(s[i])
  }

  /** The number a string of digits stands for, last digit first. */
  function Value(s: string): nat
    requires AreDigits(s)
  {
    if s == "" then 0 else 10 * Value(s[..|s| - 1]) + (s[|s| - 1] - '0') as nat
  }

  lemma {:induction false} FirstDigit(s: string)
    requires s != ""
    ensures AreDigits(s) <==> IsDigit(s[0]) && AreDigits(s[1..])
  {
    assert s == [s[0]] + s[1..];
  }

  lemma {:induction false} OneMoreDigit(s: string, c: char)
    requires AreDigits(s) && IsDigit(c)
    ensures AreDigits(s + [c]) && Value(s + [c]) == 10 * Value(s) + (c - '0') as nat
  {
    assert (s + [c])[..|s|] == s;
  }

  /** Overflow on the way means overflow at the end. */
  lemma {:induction false} ParsesOn(done: string, rest: string)
    requires AreDigits(done) && Value(done) < TWO_TO_64
    ensures ParseDigits(rest, Value(done))
         == if AreDigits(rest) && Value(done + rest) < TWO_TO_64 then Some(Value(done + rest)) else None
    decreases |rest|
  {
    if rest == "" {
      assert done + rest == done;
    } else if IsDigit(rest[0]) {
      var more := done + [rest[0]];
      OneMoreDigit(done, rest[0]);
      FirstDigit(rest);
      assert more + rest[1..] == done + rest;
      if Value(more) < TWO_TO_64 {
        ParsesOn(more, rest[1..]);
      } else if AreDigits(rest) {
        ValueGrows(more, rest[1..]);
      }
    }
  }

  lemma {:induction false} ValueGrows(s: string, more: string)
    requires AreDigits(s) && AreDigits(more)
    ensures Value(s) <= Value(s + more)
  {
    if more == "" {
      assert s + more == s;
    } else {
      var last := |more| - 1;
      ValueGrows(s, more[..last]);
      assert (s + more)[..|s| + last] == s + more[..last];
    }
  }

  predicate AreSpaces(s: string) {
    forall i :: 0 <= i < |s| ==> s[i] in {' ', '\t'}
  }

  /** Trimming cuts off all the space there is at both ends, and nothing else. */
  lemma {:induction false} TrimIsExact(s: string) returns (before: string, after: string)
    ensures s == before + Trim(s) + after && AreSpaces(before) && AreSpaces(after)
    ensures Trim(s) != "" ==> Trim(s)[0] !in {' ', '\t'} && Trim(s)[|Trim(s)| - 1] !in {' ', '\t'}
  {
    before := StartIsExact(s);
    after := EndIsExact(TrimStart(s));
    assert s == before + (Trim(s) + after);
  }

  lemma {:induction false} StartIsExact(s: string) returns (before: string)
    ensures s == before + TrimStart(s) && AreSpaces(before)
    ensures TrimStart(s) != "" ==> TrimStart(s)[0] !in {' ', '\t'}
  {
    before := "";
    if s != "" && IsSpace(s[0]) {
      var rest := StartIsExact(s[1..]);
      before := [s[0]] + rest;
    }
  }

  lemma {:induction false} EndIsExact(s: string) returns (after: string)
    ensures s == TrimEnd(s) + after && AreSpaces(after) && TrimEnd(s) <= s
    ensures TrimEnd(s) != "" ==> TrimEnd(s)[|TrimEnd(s)| - 1] !in {' ', '\t'}
  {
    after := "";
    if s != "" && IsSpace(s[|s| - 1]) {
      var rest := EndIsExact(s[..|s| - 1]);
      after := rest + [s[|s| - 1]];
    }
  }

  lemma {:induction false} TrimsStart(before: string, s: string)
    requires AreSpaces(before) && (s == "" || !IsSpace(s[0]))
    ensures TrimStart(before + s) == s
  {
    if before == "" {
      assert before + s == s;
    } else {
      TrimsStart(before[1..], s);
      assert (before + s)[1..] == before[1..] + s;
    }
  }

  lemma {:induction false} TrimsEnd(s: string, after: string)
    requires AreSpaces(after) && (s == "" || !IsSpace(s[|s| - 1]))
    ensures TrimEnd(s + after) == s
  {
    if after == "" {
      assert s + after == s;
    } else {
      var last := |after| - 1;
      TrimsEnd(s, after[..last]);
      assert (s + after)[..|s| + last] == s + after[..last];
    }
  }

  /** The text is these digits, with space around them and a plus sign before them if need be. */
  predicate Frames(value: string, before: string, digits: string, after: string) {
    && AreSpaces(before) && AreSpaces(after)
    && (value == before + digits + after || value == before + "+" + digits + after)
  }

  lemma {:induction false} FramedIsTrimmed(value: string, before: string, digits: string, after: string)
    requires Frames(value, before, digits, after) && digits != "" && AreDigits(digits)
    ensures Trim(value) in {digits, "+" + digits}
  {
    var body := if value == before + digits + after then digits else "+" + digits;
    assert value == before + (body + after);
    assert body[|body| - 1] == digits[|digits| - 1];
    TrimsStart(before, body + after);
    TrimsEnd(body, after);
  }

  lemma {:induction false} TrimmedIsExact(value: string, seconds: nat)
    ensures var body := Trim(value);
            var digits := if body != "" && body[0] == '+' then body[1..] else body;
            Parse(value) == Some(seconds) <==> digits != "" && AreDigits(digits) && Value(digits) == seconds < TWO_TO_64
  {
    var body := Trim(value);
    var digits := if body != "" && body[0] == '+' then body[1..] else body;
    ParsesOn("", digits);
    assert "" + digits == digits;
  }

  /** The text reads as this number: digits, with space around them and a plus sign before
      them if need be. */
  ghost predicate Reads(value: string, seconds: nat) {
    exists before, digits, after :: Frames(value, before, digits, after)
      && digits != "" && AreDigits(digits) && Value(digits) == seconds
  }

  /** A requested delay is read exactly from such a number below 2^64; everything else is no
      request. */
  lemma {:induction false} ParseIsExact(value: string, seconds: nat)
    ensures Parse(value) == Some(seconds) <==> Reads(value, seconds) && seconds < TWO_TO_64
  {
    TrimmedIsExact(value, seconds);
    var body := Trim(value);
    var digits := if body != "" && body[0] == '+' then body[1..] else body;
    if Parse(value) == Some(seconds) {
      var before, after := TrimIsExact(value);
      assert body[0] == '+' ==> before + body + after == before + "+" + digits + after;
      assert Frames(value, before, digits, after);
    }
    if Reads(value, seconds) {
      var before, number, after :| Frames(value, before, number, after)
        && number != "" && AreDigits(number) && Value(number) == seconds;
      FramedIsTrimmed(value, before, number, after);
      assert digits == number;
    }
  }

  // ---- round trip ----

  function Decimal(n: nat): string {
    if n < 10 then [n as char + '0'] else Decimal(n / 10) + [(n % 10) as char + '0']
  }

  lemma {:induction false} DecimalStandsFor(n: nat)
    ensures Decimal(n) != "" && AreDigits(Decimal(n)) && Value(Decimal(n)) == n
  {
    if n >= 10 {
      var rest := Decimal(n / 10);
      DecimalStandsFor(n / 10);
      assert Decimal(n)[..|rest|] == rest;
    } else {
      assert Decimal(n)[..0] == "";
    }
  }

  /** Whatever number of seconds a target writes down, with any space around it, is the
      delay it gets, as long as it fits 64 bits. */
  lemma {:induction false} RoundTrip(before: string, seconds: nat, after: string)
    requires AreSpaces(before) && AreSpaces(after)
    ensures Parse(before + Decimal(seconds) + after) == if seconds < TWO_TO_64 then Some(seconds) else None
  {
    var digits, value := Decimal(seconds), before + Decimal(seconds) + after;
    DecimalStandsFor(seconds);
    assert Frames(value, before, digits, after);
    ParseIsExact(value, seconds);
    if Parse(value).Some? {
      FramedIsTrimmed(value, before, digits, after);
      TrimmedIsExact(value, Parse(value).value);
    }
  }
}
