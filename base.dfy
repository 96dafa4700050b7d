/** Helpers shared by the whole model: an Option type, the outcome of a call
    into the payment-service client, the handful of PHP string functions the
    module relies on (trim, explode, strtoupper, str_replace, ctype_digit and
    integer-to-string conversion) restated over seq<char>, and reads from the
    configuration store. */
module Base {

  datatype Option<+T> = None | Some(value: T)

  /** The outcome of a call into a collaborator that may throw: its reply, or
      the exception it raised (whose contents the model does not need). */
  datatype Result<+T> = Ok(value: T) | Threw

  // ---------------------------------------------------------------- trim()

  /** The characters PHP's trim() strips by default: space, tab, line feed,
      carriage return, NUL and vertical tab. */
  predicate IsTrimChar(c: char) {
    c == ' ' || c == '\t' || c == '\n' || c == '\r' || c == '\0' || c == '\U{000B}'
  }

  /** Number of trim characters at the start of s. */
  function LeadingTrimCount(s: string): (k: nat)
    ensures k <= |s|
    ensures forall i :: 0 <= i < k ==> IsTrimChar(s[i])
    ensures k < |s| ==> !IsTrimChar(s[k])
  {
    if |s| > 0 && IsTrimChar(s[0]) then 1 + LeadingTrimCount(s[1..]) else 0
  }

  /** Number of trim characters at the end of s. */
  function TrailingTrimCount(s: string): (k: nat)
    ensures k <= |s|
    ensures forall i :: |s| - k <= i < |s| ==> IsTrimChar(s[i])
    ensures k < |s| ==> !IsTrimChar(s[|s| - 1 - k])
  {
    if |s| > 0 && IsTrimChar(s[|s| - 1]) then 1 + TrailingTrimCount(s[..|s| - 1]) else 0
  }

  /** PHP trim(): s with its leading and trailing trim characters removed.
      The result is the slice of s between them, and it neither starts nor
      ends with a trim character. */
  function Trim(s: string): (r: string)
    ensures LeadingTrimCount(s) + |r| <= |s|
    ensures r == s[LeadingTrimCount(s)..LeadingTrimCount(s) + |r|]
    ensures forall i :: LeadingTrimCount(s) + |r| <= i < |s| ==> IsTrimChar(s[i])
    ensures r == [] || (!IsTrimChar(r[0]) && !IsTrimChar(r[|r| - 1]))
  {
    var t := s[LeadingTrimCount(s)..];
    t[..|t| - TrailingTrimCount(t)]
  }

  /** trim() is idempotent. */
  lemma TrimIdempotent(s: string)
    ensures Trim(Trim(s)) == Trim(s)
  {
  }

  /** array_map('trim', xs). */
  function TrimAll(xs: seq<string>): (r: seq<string>)
    ensures |r| == |xs|
    ensures forall i :: 0 <= i < |xs| ==> r[i] == Trim(xs[i])
  {
    seq(|xs|, i requires 0 <= i < |xs| => Trim(xs[i]))
  }

  // ------------------------------------------------------ explode/implode

  /** Index of the first occurrence of c in s, or |s| when c does not occur. */
  function IndexOf(s: string, c: char): (k: nat)
    ensures k <= |s|
    ensures k < |s| ==> s[k] == c
    ensures forall i :: 0 <= i < k ==> s[i] != c
  {
    if |s| == 0 then 0 else if s[0] == c then 0 else 1 + IndexOf(s[1..], c)
  }

  /** PHP explode() with a one-character separator: the pieces of s between
      separators, in order; there is always at least one piece, and no piece
      contains the separator. */
  function Explode(s: string, sep: char): (parts: seq<string>)
    ensures |parts| >= 1
    ensures forall i :: 0 <= i < |parts| ==> sep !in parts[i]
    decreases |s|
  {
    var k := IndexOf(s, sep);
    if k == |s| then [s]
    else
      assert sep !in s[..k] by {
        forall i | 0 <= i < k ensures s[..k][i] != sep { }
      }
      [s[..k]] + Explode(s[k + 1..], sep)
  }

  /** PHP implode() with a one-character separator. */
  function Join(parts: seq<string>, sep: char): string
  {
    if |parts| == 0 then ""
    else if |parts| == 1 then parts[0]
    else parts[0] + [sep] + Join(parts[1..], sep)
  }

  /** Joining the pieces of s with the separator gives back s. */
  lemma {:induction false} JoinExplode(s: string, sep: char)
    ensures Join(Explode(s, sep), sep) == s
    decreases |s|
  {
    var k := IndexOf(s, sep);
    if k < |s| {
      assert Explode(s, sep) == [s[..k]] + Explode(s[k + 1..], sep);
      JoinExplode(s[k + 1..], sep);
      assert s == s[..k] + [sep] + s[k + 1..];
    }
  }

  /** Splitting a join of separator-free pieces gives back the pieces. */
  lemma {:induction false} ExplodeJoin(parts: seq<string>, sep: char)
    requires |parts| >= 1
    requires forall i :: 0 <= i < |parts| ==> sep !in parts[i]
    ensures Explode(Join(parts, sep), sep) == parts
    decreases |parts|
  {
    var s := Join(parts, sep);
    if |parts| == 1 {
      assert IndexOf(s, sep) == |s|;
    } else {
      var head := parts[0];
      var rest := Join(parts[1..], sep);
      assert s == head + [sep] + rest;
      IndexOfPastPrefix(head, sep, rest);
      assert s[..|head|] == head;
      assert s[|head| + 1..] == rest;
      ExplodeJoin(parts[1..], sep);
    }
  }

  /** The first separator in p + [sep] + q is the one right after p, when p has none. */
  lemma IndexOfPastPrefix(p: string, sep: char, q: string)
    requires sep !in p
    ensures IndexOf(p + [sep] + q, sep) == |p|
  {
    var s := p + [sep] + q;
    forall i | 0 <= i < |p| ensures s[i] != sep {
      assert s[i] == p[i];
    }
    assert s[|p|] == sep;
  }

  // ---------------------------------------------------------- strtoupper()

  /** ASCII upper-casing of one character, as strtoupper() does from PHP 8.2 on
      (and in the C locale before). */
  function UpperChar(c: char): (u: char)
    ensures u == c || ('a' <= c <= 'z' && 'A' <= u <= 'Z')
  {
    if 'a' <= c <= 'z' then (c as int - 32) as char else c
  }

  /** PHP strtoupper(): the same string with a-z replaced by A-Z. */
  function Upper(s: string): (r: string)
    ensures |r| == |s|
    ensures forall i :: 0 <= i < |s| ==> r[i] == UpperChar(s[i])
  {
    seq(|s|, i requires 0 <= i < |s| => UpperChar(s[i]))
  }

  // --------------------------------------------------- str_replace(x, '')

  /** PHP str_replace(needle, '', s): every occurrence of needle, scanned left
      to right without overlap, removed. An empty needle leaves s unchanged.
      Removing a one-character needle leaves no occurrence of it, and keeps
      every other character of s. */
  function RemoveAll(s: string, needle: string): (r: string)
    ensures |r| <= |s|
    ensures |needle| == 0 ==> r == s
    ensures |needle| == 1 ==> needle[0] !in r
    ensures |needle| == 1 ==> forall c :: c in s && c != needle[0] ==> c in r
    decreases |s|
  {
    if |needle| == 0 || |s| < |needle| then s
    else if s[..|needle|] == needle then RemoveAll(s[|needle|..], needle)
    else [s[0]] + RemoveAll(s[1..], needle)
  }

  /** Removing one character distributes over concatenation. */
  lemma {:induction false} RemoveCharConcat(a: string, b: string, c: char)
    ensures RemoveAll(a + b, [c]) == RemoveAll(a, [c]) + RemoveAll(b, [c])
    decreases |a|
  {
    if |a| == 0 {
      assert a + b == b;
    } else {
      assert (a + b)[1..] == a[1..] + b;
      assert (a + b)[..1] == a[..1];
      RemoveCharConcat(a[1..], b, c);
    }
  }

  /** Removing a character a string does not contain leaves it unchanged. */
  lemma {:induction false} RemoveAbsentChar(s: string, c: char)
    requires c !in s
    ensures RemoveAll(s, [c]) == s
    decreases |s|
  {
    if |s| > 0 {
      assert s[..1] == [s[0]];
      RemoveAbsentChar(s[1..], c);
      assert [s[0]] + s[1..] == s;
    }
  }

  /** Removing the dashes from a-b and from a-b-c, when the pieces hold none. */
  lemma RemoveDashJoin(a: string, b: string)
    requires '-' !in a && '-' !in b
    ensures RemoveAll(a + "-" + b, "-") == a + b
  {
    RemoveCharConcat(a, "-" + b, '-');
    RemoveCharConcat("-", b, '-');
    RemoveAbsentChar(a, '-');
    RemoveAbsentChar(b, '-');
    assert RemoveAll("-", "-") == "";
    assert a + "-" + b == a + ("-" + b);
  }

  lemma RemoveDashJoin3(a: string, b: string, c: string)
    requires '-' !in a && '-' !in b && '-' !in c
    ensures RemoveAll(a + "-" + b + "-" + c, "-") == a + b + c
  {
    var x := a + "-" + b;
    RemoveDashJoin(a, b);
    RemoveCharConcat(x, "-" + c, '-');
    RemoveCharConcat("-", c, '-');
    RemoveAbsentChar(c, '-');
    assert RemoveAll("-", "-") == "";
    assert x + "-" + c == x + ("-" + c);
  }

  // ------------------------------------------------------- digit strings

  predicate IsDigit(c: char) { '0' <= c <= '9' }

  /** PHP ctype_digit() on a string: non-empty and made of decimal digits only. */
  predicate IsDigits(s: string) {
    |s| > 0 && forall i :: 0 <= i < |s| ==> IsDigit(s[i])
  }

  /** The number a string of decimal digits denotes (leading zeros allowed). */
  function DigitsValue(s: string): (n: nat)
    requires forall i :: 0 <= i < |s| ==> IsDigit(s[i])
  {
    if |s| == 0 then 0
    else
      assert IsDigit(s[|s| - 1]);
      10 * DigitsValue(s[..|s| - 1]) + (s[|s| - 1] as int - '0' as int)
  }

  function DigitChar(d: nat): (c: char)
    requires d < 10
    ensures IsDigit(c) && c as int - '0' as int == d
  {
    ('0' as int + d) as char
  }

  /** The decimal representation of n, as PHP writes an integer into a string. */
  function NatToString(n: nat): (s: string)
    ensures IsDigits(s)
    ensures |s| > 1 ==> s[0] != '0'
  {
    if n < 10 then [DigitChar(n)] else NatToString(n / 10) + [DigitChar(n % 10)]
  }

  /** Reading back the decimal representation of n gives n. */
  lemma {:induction false} NatToStringRoundTrip(n: nat)
    ensures DigitsValue(NatToString(n)) == n
  {
    if n >= 10 {
      var s := NatToString(n);
      assert s[..|s| - 1] == NatToString(n / 10);
      NatToStringRoundTrip(n / 10);
    }
  }

  // ------------------------------------------------- configuration store

  /** The configuration store (PrestaShop's Configuration table): key to value. */
  type Config = map<string, string>

  /** Configuration::get(key), and equally Tools::getValue(key) on a
      submitted form: the stored value, or "" for an unset key (PHP's false
      behaves as "" in every use the module makes of it). */
  function ConfigValue(config: Config, key: string): (v: string)
    ensures key in config ==> v == config[key]
    ensures key !in config ==> v == ""
  {
    if key in config then config[key] else ""
  }

  /** PHP truthiness of a string: everything except "" and "0". */
  predicate Truthy(s: string) {
    s != "" && s != "0"
  }
}
