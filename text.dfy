/**
 * The handful of Python `str` operations the services rely on:
 * `strip`/`strip(chars)`, `lower`, `in`, `index`, `startswith`, `isdigit`
 * and decimal `str(int)`.  Character classes follow Python on the ASCII and
 * Latin-1 range.
 */
module Text {
  import opened Wrappers

  /** `str.isspace` on Latin-1: tab..carriage return, the four separators, NEL, NBSP and space. */
  predicate IsSpace(c: char) {
    var n := c as int;
    n == 32 || 9 <= n <= 13 || 28 <= n <= 31 || n == 0x85 || n == 0xA0
  }

  /** `str.isdigit` on ASCII. */
  predicate IsDigit(c: char) {
    '0' <= c <= '9'
  }

  /** Upper-case letters that `str.lower` changes: A-Z and Latin-1 À-Þ except ×. */
  predicate IsUpper(c: char) {
    ('A' <= c <= 'Z') || (0xC0 <= c as int <= 0xDE && c as int != 0xD7)
  }

  function LowerChar(c: char): (r: char)
    ensures !IsUpper(r)
    ensures !IsUpper(c) ==> r == c
  {
    if IsUpper(c) then (c as int + 32) as char else c
  }

  /** `str.lower`, character by character. */
  function Lower(s: string): (r: string)
    ensures |r| == |s|
    ensures forall i :: 0 <= i < |s| ==> r[i] == LowerChar(s[i])
  {
    seq(|s|, i requires 0 <= i < |s| => LowerChar(s[i]))
  }

  predicate IsLower(s: string) {
    forall i :: 0 <= i < |s| ==> !IsUpper(s[i])
  }

  lemma LowerIsLower(s: string)
    ensures IsLower(Lower(s))
    ensures Lower(Lower(s)) == Lower(s)
  {
  }

  lemma LowerOfLower(s: string)
    requires IsLower(s)
    ensures Lower(s) == s
  {
  }

  lemma LowerSlice(s: string, i: nat, j: nat)
    requires i <= j <= |s|
    ensures Lower(s[i..j]) == Lower(s)[i..j]
  {
  }

  // ---------- strip ----------

  /** Number of leading characters of `s` that `drop` removes. */
  function LeadCount(s: string, drop: char -> bool): (n: nat)
    ensures n <= |s|
    ensures forall k :: 0 <= k < n ==> drop(s[k])
    ensures n < |s| ==> !drop(s[n])
  {
    if |s| > 0 && drop(s[0]) then 1 + LeadCount(s[1..], drop) else 0
  }

  /** A run of dropped characters followed by a kept one: the run is exactly the lead. */
  lemma LeadCountConcat(a: string, rest: string, drop: char -> bool)
    requires forall k :: 0 <= k < |a| ==> drop(a[k])
    requires rest != [] && !drop(rest[0])
    ensures LeadCount(a + rest, drop) == |a|
  {
    var s := a + rest;
    assert s[|a|] == rest[0];
    assert forall k :: 0 <= k < |a| ==> s[k] == a[k];
  }

  /** Number of trailing characters of `s` that `drop` removes. */
  function TrailCount(s: string, drop: char -> bool): (n: nat)
    ensures n <= |s|
    ensures forall k :: |s| - n <= k < |s| ==> drop(s[k])
    ensures n < |s| ==> !drop(s[|s| - 1 - n])
  {
    if |s| > 0 && drop(s[|s| - 1]) then 1 + TrailCount(s[..|s| - 1], drop) else 0
  }

  /** True when neither end of `s` is a character that `drop` removes. */
  predicate Trimmed(s: string, drop: char -> bool) {
    s == [] || (!drop(s[0]) && !drop(s[|s| - 1]))
  }

  /** `str.strip` generalised to the set of characters `drop` names. */
  function StripWith(s: string, drop: char -> bool): (r: string)
    ensures Trimmed(r, drop)
    ensures exists i, j :: (0 <= i <= j <= |s| && r == s[i..j]
      && (forall k :: 0 <= k < i ==> drop(s[k]))
      && (forall k :: j <= k < |s| ==> drop(s[k])))
  {
    var i := LeadCount(s, drop);
    var t := s[i..];
    var n := TrailCount(t, drop);
    assert t[..|t| - n] == s[i..|s| - n];
    s[i..|s| - n]
  }

  /** Stripping a string whose ends are already kept changes nothing. */
  lemma StripTrimmed(s: string, drop: char -> bool)
    requires Trimmed(s, drop)
    ensures StripWith(s, drop) == s
  {
    var i := LeadCount(s, drop);
    assert i == 0;
    assert TrailCount(s[i..], drop) == 0 by {
      assert s[i..] == s;
    }
  }

  lemma StripIdempotent(s: string, drop: char -> bool)
    ensures StripWith(StripWith(s, drop), drop) == StripWith(s, drop)
  {
    StripTrimmed(StripWith(s, drop), drop);
  }

  /** A string with no kept character strips to the empty string, and only such a string does. */
  lemma StripEmptyIff(s: string, drop: char -> bool)
    ensures StripWith(s, drop) == [] <==> forall k :: 0 <= k < |s| ==> drop(s[k])
  {
    var i := LeadCount(s, drop);
    if forall k :: 0 <= k < |s| ==> drop(s[k]) {
      assert i == |s|;
    }
  }

  /** Stripping keeps a string lower-case. */
  lemma StripKeepsLower(s: string, drop: char -> bool)
    requires IsLower(s)
    ensures IsLower(StripWith(s, drop))
  {
    var i := LeadCount(s, drop);
    var n := TrailCount(s[i..], drop);
    var r := s[i..|s| - n];
    assert forall m :: 0 <= m < |r| ==> r[m] == s[i + m];
  }

  /** `str.strip()` with no argument. */
  function Strip(s: string): (r: string)
    ensures Trimmed(r, IsSpace)
  {
    StripWith(s, IsSpace)
  }

  /** `str.strip(chars)`. */
  function StripChars(s: string, chars: set<char>): (r: string)
    ensures r == [] || (r[0] !in chars && r[|r| - 1] !in chars)
  {
    StripWith(s, c => c in chars)
  }

  lemma StripCharsKeepsLower(s: string, chars: set<char>)
    requires IsLower(s)
    ensures IsLower(StripChars(s, chars))
  {
    StripKeepsLower(s, c => c in chars);
  }

  /** A substring of the lowered, stripped string is a substring of the lowered original. */
  lemma OccursInStrippedLower(t: string, chars: set<char>, w: string, p: int)
    requires OccursAt(Lower(StripChars(t, chars)), w, p)
    ensures exists q :: OccursAt(Lower(t), w, q)
  {
    var i, j := StripCharsSlice(t, chars);
    LowerSlice(t, i, j);
    OccursInSlice(Lower(t), w, i, j, p);
  }

  /** `strip(chars)` returns a slice of its argument. */
  lemma StripCharsSlice(t: string, chars: set<char>) returns (i: nat, j: nat)
    ensures i <= j <= |t| && StripChars(t, chars) == t[i..j]
  {
    var drop := c => c in chars;
    i := LeadCount(t, drop);
    var n := TrailCount(t[i..], drop);
    assert t[i..][..|t[i..]| - n] == t[i..|t| - n];
    j := |t| - n;
  }

  /** Stripping characters from a string that neither starts nor ends with one changes nothing. */
  lemma StripCharsTrimmed(s: string, chars: set<char>)
    requires s == [] || (s[0] !in chars && s[|s| - 1] !in chars)
    ensures StripChars(s, chars) == s
  {
    StripTrimmed(s, c => c in chars);
  }

  /** Python's `value or default` on an optional string: `None` and `""` are falsy. */
  function OrElse(value: Option<string>, default: string): (r: string)
    ensures r == default || (value.Some? && r == value.value != "")
  {
    if value.Some? && value.value != "" then value.value else default
  }

  /** Python truthiness of an optional string. */
  predicate Truthy(value: Option<string>) {
    value.Some? && value.value != ""
  }

  // ---------- search ----------

  predicate OccursAt(s: string, sub: string, i: int) {
    0 <= i && i + |sub| <= |s| && s[i..i + |sub|] == sub
  }

  /** Occurrences in `s[1..]` are the occurrences in `s` after the first position, shifted by one. */
  lemma OccursShift(s: string, sub: string, j: int)
    requires |s| > 0 && 1 <= j
    ensures OccursAt(s, sub, j) == OccursAt(s[1..], sub, j - 1)
  {
    if j + |sub| <= |s| {
      assert s[j..j + |sub|] == s[1..][j - 1..j - 1 + |sub|];
    }
  }

  /** `s.find(sub)` as an option: the earliest index at which `sub` occurs. */
  function IndexOf(s: string, sub: string): (r: Option<nat>)
    ensures r.Some? ==> OccursAt(s, sub, r.value)
    ensures r.Some? ==> forall j :: 0 <= j < r.value ==> !OccursAt(s, sub, j)
    ensures r.None? ==> forall j :: !OccursAt(s, sub, j)
    decreases |s|
  {
    if |sub| > |s| then None
    else if s[..|sub|] == sub then Some(0)
    else
      var rest := IndexOf(s[1..], sub);
      assert forall j :: 1 <= j ==> OccursAt(s, sub, j) == OccursAt(s[1..], sub, j - 1) by {
        forall j | 1 <= j { OccursShift(s, sub, j); }
      }
      if rest.None? then None else Some(rest.value + 1)
  }

  /** Python's `sub in s`. */
  predicate Contains(s: string, sub: string) {
    IndexOf(s, sub).Some?
  }

  lemma ContainsIff(s: string, sub: string)
    ensures Contains(s, sub) <==> exists j :: OccursAt(s, sub, j)
  {
    if Contains(s, sub) {
      var k := IndexOf(s, sub).value;
      assert OccursAt(s, sub, k);
    }
  }

  /** An occurrence inside a slice is an occurrence in the whole string, shifted. */
  lemma OccursInSlice(s: string, sub: string, i: nat, j: nat, p: int)
    requires i <= j <= |s|
    requires OccursAt(s[i..j], sub, p)
    ensures OccursAt(s, sub, i + p)
  {
    var t := s[i..j];
    forall k | 0 <= k < |sub| ensures s[i + p + k] == sub[k] {
      assert t[p..p + |sub|][k] == sub[k];
    }
    assert s[i + p..i + p + |sub|] == sub;
  }

  /** `str.startswith`. */
  predicate StartsWith(s: string, prefix: string) {
    |prefix| <= |s| && s[..|prefix|] == prefix
  }

  // ---------- decimal numbers ----------

  function DigitChar(d: nat): (c: char)
    requires d < 10
    ensures IsDigit(c)
  {
    ('0' as int + d) as char
  }

  function DigitValue(c: char): nat
    requires IsDigit(c)
  {
    c as int - '0' as int
  }

  predicate AllDigits(s: string) {
    forall k :: 0 <= k < |s| ==> IsDigit(s[k])
  }

  /** `str(n)` for a natural number. */
  function NatToDec(n: nat): (r: string)
    ensures |r| >= 1 && AllDigits(r)
    ensures (|r| == 1) == (n < 10)
  {
    if n < 10 then [DigitChar(n)] else NatToDec(n / 10) + [DigitChar(n % 10)]
  }

  /** Distinct numbers print differently. */
  lemma {:induction false} NatToDecInjective(a: nat, b: nat)
    requires NatToDec(a) == NatToDec(b)
    ensures a == b
  {
    if a >= 10 && b >= 10 {
      var sa, sb := NatToDec(a), NatToDec(b);
      assert sa[|sa| - 1] == DigitChar(a % 10) && sb[|sb| - 1] == DigitChar(b % 10);
      assert NatToDec(a / 10) == sa[..|sa| - 1] == sb[..|sb| - 1] == NatToDec(b / 10);
      NatToDecInjective(a / 10, b / 10);
    }
  }

  /** `str(i)` for any integer: a minus sign, then the magnitude. */
  function IntToDec(i: int): (r: string)
    ensures |r| >= 1
    ensures (r[0] == '-') == (i < 0)
  {
    if i < 0 then "-" + NatToDec(-i) else NatToDec(i)
  }

  lemma IntToDecInjective(a: int, b: int)
    requires IntToDec(a) == IntToDec(b)
    ensures a == b
  {
    if a < 0 && b < 0 {
      assert NatToDec(-a) == IntToDec(a)[1..] == IntToDec(b)[1..] == NatToDec(-b);
      NatToDecInjective(-a, -b);
    } else if a >= 0 && b >= 0 {
      NatToDecInjective(a, b);
    }
  }

  /** A fixed prefix followed by `str(i)` names `i` uniquely. */
  lemma PrefixedIntInjective(prefix: string, a: int, b: int)
    requires prefix + IntToDec(a) == prefix + IntToDec(b)
    ensures a == b
  {
    assert IntToDec(a) == (prefix + IntToDec(a))[|prefix|..];
    assert IntToDec(b) == (prefix + IntToDec(b))[|prefix|..];
    IntToDecInjective(a, b);
  }

  /** `sep.join(parts)`. */
  function Join(sep: string, parts: seq<string>): string {
    if |parts| == 0 then ""
    else if |parts| == 1 then parts[0]
    else parts[0] + sep + Join(sep, parts[1..])
  }
}
