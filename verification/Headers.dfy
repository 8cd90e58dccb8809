/** HTTP header names and the operations that do not care about their case. Names are
    ASCII, as RFC 9110 (section 5.1) has them. */
module Headers {
  import opened Wrappers

  /** The headers of a request in order: the name, and the value if it is text. */
  type HeaderMap = seq<(string, Option<string>)>

  function LowerChar(c: char): char {
    if 'A' <= c <= 'Z' then c - 'A' + 'a' else c
  }

  function Lower(s: string): (r: string)
    ensures |r| == |s| && forall i :: 0 <= i < |s| ==> r[i] == LowerChar(s[i])
  {
    if s == "" then "" else [LowerChar(s[0])] + Lower(s[1..])
  }

  predicate EqIgnoreCase(a: string, b: string) {
    Lower(a) == Lower(b)
  }

  lemma {:induction false} LowerTwice(s: string)
    ensures Lower(Lower(s)) == Lower(s)
  {
  }

  /** Names are the same if they differ at most in the case of ASCII letters. */
  lemma {:induction false} EqIgnoreCaseIsExact(a: string, b: string)
    ensures EqIgnoreCase(a, b) <==>
              && |a| == |b|
              && forall i :: 0 <= i < |a| ==>
                   || a[i] == b[i]
                   || ('A' <= a[i] <= 'Z' && b[i] as int == a[i] as int + 32)
                   || ('A' <= b[i] <= 'Z' && a[i] as int == b[i] as int + 32)
  {
    if EqIgnoreCase(a, b) {
      forall i | 0 <= i < |a| ensures LowerChar(a[i]) == LowerChar(b[i]) {
        assert Lower(a)[i] == Lower(b)[i];
      }
    }
  }

  lemma {:induction false} LowerIsExact(s: string)
    ensures EqIgnoreCase(Lower(s), s)
    ensures forall i :: 0 <= i < |s| ==> !('A' <= Lower(s)[i] <= 'Z')
  {
    LowerTwice(s);
  }

  /** The value of the first header of that name. */
  function Get(headers: HeaderMap, name: string): Option<string> {
    if headers == [] then None
    else if EqIgnoreCase(headers[0].0, name) then headers[0].1
    else Get(headers[1..], name)
  }

  /** The first header of that name is at `i`. */
  predicate IsFirstOf(headers: HeaderMap, i: nat, name: string)
    requires i < |headers|
  {
    EqIgnoreCase(headers[i].0, name) && forall j :: 0 <= j < i ==> !EqIgnoreCase(headers[j].0, name)
  }

  /** The first header of that name has this value. */
  predicate Shows(headers: HeaderMap, name: string, value: string) {
    exists i :: 0 <= i < |headers| && IsFirstOf(headers, i, name) && headers[i].1 == Some(value)
  }

  lemma {:induction false} GetIsExact(headers: HeaderMap, name: string, value: string)
    ensures Get(headers, name) == Some(value) <==> Shows(headers, name, value)
  {
    if headers != [] {
      var rest := headers[1..];
      if EqIgnoreCase(headers[0].0, name) {
        assert IsFirstOf(headers, 0, name);
      } else {
        GetIsExact(rest, name, value);
        forall i | 0 <= i < |rest| ensures IsFirstOf(headers, i + 1, name) <==> IsFirstOf(rest, i, name) {
          assert forall j :: 0 < j <= i ==> headers[j] == rest[j - 1];
        }
        if i :| 0 <= i < |rest| && IsFirstOf(rest, i, name) && rest[i].1 == Some(value) {
          assert IsFirstOf(headers, i + 1, name) && headers[i + 1] == rest[i];
        }
        if i :| 0 <= i < |headers| && IsFirstOf(headers, i, name) && headers[i].1 == Some(value) {
          assert i > 0 && IsFirstOf(rest, i - 1, name) && rest[i - 1] == headers[i];
        }
      }
    }
  }

  // ---- what is stored of them ----

  /** The headers kept with a webhook: text, under lower-case names, without the ignored
      ones; of two with one name the later wins. */
  function StoredHeaders(headers: HeaderMap, ignored: set<string>): map<string, string> {
    if headers == [] then map[]
    else
      var last := headers[|headers| - 1];
      var before := StoredHeaders(headers[..|headers| - 1], ignored);
      if Lower(last.0) in ignored || last.1.None? then before else before[Lower(last.0) := last.1.value]
  }

  /** The header at `i` is kept, and no later one replaces it. */
  predicate IsLastOf(headers: HeaderMap, i: nat, name: string)
    requires i < |headers|
  {
    && headers[i].1.Some? && Lower(headers[i].0) == name
    && forall j :: i < j < |headers| && headers[j].1.Some? ==> Lower(headers[j].0) != name
  }

  /** The last header of this lower-case name that is text has this value. */
  predicate IsKept(headers: HeaderMap, name: string, value: string) {
    exists i :: 0 <= i < |headers| && IsLastOf(headers, i, name) && headers[i].1 == Some(value)
  }

  /** Exactly the last text value of every header that is not ignored is stored. */
  lemma {:induction false} StoredHeadersAreExact(headers: HeaderMap, ignored: set<string>, name: string, value: string)
    ensures var stored := StoredHeaders(headers, ignored);
            name in stored && stored[name] == value
            <==> name !in ignored && IsKept(headers, name, value)
  {
    if headers != [] {
      var n := |headers| - 1;
      var before := headers[..n];
      StoredHeadersAreExact(before, ignored, name, value);
      if Lower(headers[n].0) == name && headers[n].1.Some? {
        assert IsLastOf(headers, n, name);
      } else {
        forall i | 0 <= i < n ensures IsLastOf(headers, i, name) <==> IsLastOf(before, i, name) {
        }
        assert forall i :: 0 <= i < n ==> headers[i] == before[i];
      }
    }
  }

  lemma {:induction false} StoredNames(headers: HeaderMap, ignored: set<string>, name: string)
    requires name in StoredHeaders(headers, ignored)
    ensures name !in ignored && Lower(name) == name
  {
    StoredHeadersAreExact(headers, ignored, name, StoredHeaders(headers, ignored)[name]);
    var i :| 0 <= i < |headers| && IsLastOf(headers, i, name);
    LowerTwice(headers[i].0);
  }
}
