/** The Python string operations the gateway relies on: `str.isspace`,
    `str.strip`, `str.lower`, `str.startswith` and `"".join`. */
module PyText {

  /** `c.isspace()` in Python 3: the ASCII whitespace and separator controls,
      NEL, and the Unicode space separators and line/paragraph separators. */
  predicate IsSpace(c: char) {
    c == ' ' || c == '\t' || c == '\n' || c == '\r'
    || c == '\U{B}' || c == '\U{C}'
    || ('\U{1C}' <= c <= '\U{1F}')
    || c == '\U{85}' || c == '\U{A0}' || c == '\U{1680}'
    || ('\U{2000}' <= c <= '\U{200A}')
    || c == '\U{2028}' || c == '\U{2029}' || c == '\U{202F}' || c == '\U{205F}' || c == '\U{3000}'
  }

  /** Every character is whitespace (the empty string included). */
  predicate IsBlank(s: string) {
    forall i :: 0 <= i < |s| ==> IsSpace(s[i])
  }

  /** `s.lstrip()` */
  function TrimStart(s: string): string {
    if s != "" && IsSpace(s[0]) then TrimStart(s[1..]) else s
  }

  /** `s.rstrip()` */
  function TrimEnd(s: string): string {
    if s != "" && IsSpace(s[|s| - 1]) then TrimEnd(s[..|s| - 1]) else s
  }

  /** What `lstrip` leaves is a suffix of `s`, the part it removes is
      whitespace, and what is left does not start with whitespace. */
  lemma {:induction false} TrimStartSuffix(s: string)
    ensures |TrimStart(s)| <= |s| && TrimStart(s) == s[|s| - |TrimStart(s)|..]
    ensures IsBlank(s[..|s| - |TrimStart(s)|])
    ensures TrimStart(s) != "" ==> !IsSpace(TrimStart(s)[0])
  {
    if s != "" && IsSpace(s[0]) {
      TrimStartSuffix(s[1..]);
      var k := |s| - |TrimStart(s)|;
      assert s[1..][..k - 1] == s[1..k];
      assert forall i :: 1 <= i < k ==> s[i] == s[1..k][i - 1];
    }
  }

  /** What `rstrip` leaves is a prefix of `s`, the part it removes is
      whitespace, and what is left does not end with whitespace. */
  lemma {:induction false} TrimEndPrefix(s: string)
    ensures |TrimEnd(s)| <= |s| && TrimEnd(s) == s[..|TrimEnd(s)|]
    ensures IsBlank(s[|TrimEnd(s)|..])
    ensures TrimEnd(s) != "" ==> !IsSpace(TrimEnd(s)[|TrimEnd(s)| - 1])
  {
    if s != "" && IsSpace(s[|s| - 1]) {
      TrimEndPrefix(s[..|s| - 1]);
      var k := |TrimEnd(s)|;
      assert s[..|s| - 1][k..] == s[k..|s| - 1];
      assert forall i :: k <= i < |s| - 1 ==> s[i] == s[k..|s| - 1][i - k];
    }
  }

  /** How many characters `s.lstrip()` removes. */
  function LeadingSpace(s: string): nat {
    TrimStartSuffix(s);
    |s| - |TrimStart(s)|
  }

  /** `s.strip()`. */
  function Strip(s: string): string {
    TrimEnd(TrimStart(s))
  }

  /** `s.strip()` is a slice of `s` with only whitespace cut off either side,
      and it neither starts nor ends with whitespace. */
  lemma StripSlice(s: string)
    ensures var k := LeadingSpace(s); k + |Strip(s)| <= |s|
    ensures var k := LeadingSpace(s); Strip(s) == s[k..k + |Strip(s)|]
    ensures var k := LeadingSpace(s); IsBlank(s[..k]) && IsBlank(s[k + |Strip(s)|..])
    ensures Strip(s) != "" ==> !IsSpace(Strip(s)[0]) && !IsSpace(Strip(s)[|Strip(s)| - 1])
  {
    var t := TrimStart(s);
    var r := TrimEnd(t);
    var k := LeadingSpace(s);
    TrimStartSuffix(s);
    TrimEndPrefix(t);
    assert t == s[k..];
    assert r == t[..|r|];
    assert t[|r|..] == s[k + |r|..];
    assert t[..|r|] == s[k..k + |r|];
    if r != "" {
      assert r[0] == t[0];
    }
  }

  /** `s.strip()` is empty exactly when `s` is blank: this is what the
      source's `if x.strip():` tests. */
  lemma StripEmptyIffBlank(s: string)
    ensures Strip(s) == "" <==> IsBlank(s)
  {
    StripSlice(s);
    var k := LeadingSpace(s);
    if Strip(s) == "" {
      forall i | 0 <= i < |s| ensures IsSpace(s[i]) {
        if i < k { assert s[i] == s[..k][i]; } else { assert s[i] == s[k..][i - k]; }
      }
    } else {
      assert !IsSpace(s[k]) by {
        assert Strip(s)[0] == s[k];
      }
    }
  }

  /** A string that neither starts nor ends with whitespace is its own strip. */
  lemma StripUntrimmed(s: string)
    requires s != "" ==> !IsSpace(s[0]) && !IsSpace(s[|s| - 1])
    ensures Strip(s) == s
  {
    assert TrimStart(s) == s;
  }

  /** Stripping twice is stripping once. */
  lemma StripIdempotent(s: string)
    ensures Strip(Strip(s)) == Strip(s)
  {
    StripSlice(s);
  }

  /** `c.lower()` for ASCII letters; every other character is left alone. */
  function LowerChar(c: char): char {
    if 'A' <= c <= 'Z' then (c as int + ('a' as int - 'A' as int)) as char else c
  }

  /** `s.lower()`, character by character. */
  function Lower(s: string): string {
    seq(|s|, i requires 0 <= i < |s| => LowerChar(s[i]))
  }

  /** `s.startswith(prefix)`. */
  predicate StartsWith(s: string, prefix: string) {
    |prefix| <= |s| && s[..|prefix|] == prefix
  }

  /** `"".join(parts)`. */
  function Concat(parts: seq<string>): string {
    if parts == [] then "" else Concat(parts[..|parts| - 1]) + parts[|parts| - 1]
  }

  /** The join is empty exactly when every part is empty. */
  lemma {:induction false} ConcatEmptyIff(parts: seq<string>)
    ensures Concat(parts) == "" <==> forall i :: 0 <= i < |parts| ==> parts[i] == ""
  {
    if parts != [] {
      var init := parts[..|parts| - 1];
      ConcatEmptyIff(init);
      if Concat(parts) == "" {
        forall i | 0 <= i < |parts| ensures parts[i] == "" {
          if i < |parts| - 1 { assert parts[i] == init[i]; }
        }
      }
    }
  }
}
