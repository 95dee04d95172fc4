/** The string operations of the standard library that the modelled code relies on. */
module Text {
  import opened Wrappers

  predicate At(s: string, pat: string, i: nat) {
    i + |pat| <= |s| && s[i..i + |pat|] == pat
  }

  lemma AtTail(s: string, pat: string, j: nat)
    requires 1 <= j <= |s|
    ensures At(s, pat, j) <==> At(s[1..], pat, j - 1)
  {
    var tail := s[1..];
    if j + |pat| <= |s| {
      var a, b := s[j..j + |pat|], tail[j - 1..j - 1 + |pat|];
      assert |a| == |b| && forall k | 0 <= k < |a| :: a[k] == b[k];
      assert a == b;
    }
  }

  /** Index of the first occurrence. */
  function Find(s: string, pat: string): (r: Option<nat>)
    ensures r.Some? ==> At(s, pat, r.value) && forall j | 0 <= j < r.value :: !At(s, pat, j)
    ensures r.None? ==> forall j | 0 <= j <= |s| :: !At(s, pat, j)
  {
    if |s| < |pat| then None
    else if s[..|pat|] == pat then Some(0)
    else
      assert forall j | 1 <= j <= |s| :: At(s, pat, j) <==> At(s[1..], pat, j - 1) by {
        forall j | 1 <= j <= |s| ensures At(s, pat, j) <==> At(s[1..], pat, j - 1) {
          AtTail(s, pat, j);
        }
      }
      match Find(s[1..], pat)
      case None => None
      case Some(i) => Some(i + 1)
  }

  /** `str::split_once`. */
  function SplitOnce(s: string, pat: string): Option<(string, string)> {
    match Find(s, pat)
    case None => None
    case Some(i) => Some((s[..i], s[i + |pat|..]))
  }

  /** No occurrence of `pat` starts inside `head` when `pat` follows it. */
  ghost predicate Clear(head: string, pat: string) {
    forall i | 0 <= i < |head| :: !At(head + pat, pat, i)
  }

  lemma AtPrefix(head: string, pat: string, tail: string, i: nat)
    requires i <= |head|
    ensures At(head + pat + tail, pat, i) <==> At(head + pat, pat, i)
  {
    var s := head + pat + tail;
    assert s[i..i + |pat|] == (head + pat)[i..i + |pat|];
  }

  /** Splitting recovers the two sides exactly when the head is clear of the separator. */
  lemma SplitOnceRecovers(head: string, pat: string, tail: string)
    ensures SplitOnce(head + pat + tail, pat) == Some((head, tail)) <==> Clear(head, pat)
    ensures !Clear(head, pat) ==>
      exists i | 0 <= i < |head| :: SplitOnce(head + pat + tail, pat) == Some((head[..i], (head + pat + tail)[i + |pat|..]))
  {
    var s := head + pat + tail;
    forall i: nat | i <= |head| ensures At(s, pat, i) <==> At(head + pat, pat, i) {
      AtPrefix(head, pat, tail, i);
    }
    assert (head + pat)[|head|..|head| + |pat|] == pat;
    assert At(s, pat, |head|);
    var first := Find(s, pat).value;
    assert first <= |head|;
    if Clear(head, pat) {
      assert first == |head|;
      assert s[..first] == head && s[first + |pat|..] == tail;
    } else {
      var i :| 0 <= i < |head| && At(head + pat, pat, i);
      assert At(s, pat, i) && first <= i < |head|;
      assert s[..first] == head[..first];
    }
  }

  lemma ClearChar(head: string, c: char)
    ensures Clear(head, [c]) <==> c !in head
  {
    forall i | 0 <= i < |head| ensures At(head + [c], [c], i) <==> head[i] == c {
      assert (head + [c])[i..i + 1] == [head[i]];
    }
  }

  /** `str::rsplit_once` for one character. */
  function RSplitOnce(s: string, c: char): (r: Option<(string, string)>)
    ensures r.Some? ==> s == r.value.0 + [c] + r.value.1 && c !in r.value.1
    ensures r.None? ==> c !in s
  {
    if s == [] then None
    else
      var last := s[|s| - 1];
      assert s == s[..|s| - 1] + [last];
      if last == c then Some((s[..|s| - 1], []))
      else match RSplitOnce(s[..|s| - 1], c)
        case None => None
        case Some(p) => Some((p.0, p.1 + [last]))
  }

  lemma LastAt(s: string, c: char, head: string, tail: string, k: nat)
    requires s == head + [c] + tail && c !in tail
    requires k < |s| && s[k] == c
    ensures k <= |head|
  {
    assert forall i | |head| < i < |s| :: s[i] == tail[i - |head| - 1] && s[i] != c;
  }

  /** The last separator is the only split with a tail free of it. */
  lemma RSplitUnique(head: string, c: char, tail: string)
    requires c !in tail
    ensures RSplitOnce(head + [c] + tail, c) == Some((head, tail))
  {
    var s := head + [c] + tail;
    assert s[|head|] == c;
    var (h, t) := RSplitOnce(s, c).value;
    LastAt(s, c, h, t, |head|);
    LastAt(s, c, head, tail, |h|);
    assert h == s[..|h|] == s[..|head|] == head;
    assert t == s[|h| + 1..] == tail;
  }

  // ---- Decimal numbers -------------------------------------------------------------

  predicate IsDigit(c: char) {
    '0' <= c <= '9'
  }

  function DigitValue(c: char): (r: nat)
    requires IsDigit(c)
    ensures r < 10
  {
    (c - '0') as nat
  }

  function DigitChar(d: nat): (c: char)
    requires d < 10
    ensures IsDigit(c) && DigitValue(c) == d
  {
    '0' + d as char
  }

  predicate AllDigits(s: string) {
    forall i | 0 <= i < |s| :: IsDigit(s[i])
  }

  function Value(s: string): nat
    requires AllDigits(s)
  {
    if s == [] then 0 else 10 * Value(s[..|s| - 1]) + DigitValue(s[|s| - 1])
  }

  function Decimal(n: nat): (s: string)
    ensures s != [] && AllDigits(s) && Value(s) == n
  {
    if n < 10 then [DigitChar(n)]
    else
      var rest := Decimal(n / 10);
      var s := rest + [DigitChar(n % 10)];
      assert s[..|s| - 1] == rest;
      s
  }

  const U16_MAX: nat := 65535

  /** `str::parse::<u16>`: an optional plus sign, then digits, in range. */
  function ParseU16(s: string): (r: Option<nat>)
    ensures r.Some? ==> r.value <= U16_MAX
  {
    var digits := if s != [] && s[0] == '+' then s[1..] else s;
    if digits == [] || !AllDigits(digits) || Value(digits) > U16_MAX then None else Some(Value(digits))
  }

  lemma ParsePrinted(n: nat)
    requires n <= U16_MAX
    ensures ParseU16(Decimal(n)) == Some(n)
  {
  }

  lemma DigitsExclude(s: string, c: char)
    requires AllDigits(s) && !IsDigit(c)
    ensures c !in s
  {
  }

  /** `str::strip_prefix` and `str::strip_suffix`. */
  function StripPrefix(s: string, p: string): (r: Option<string>)
    ensures r.Some? <==> p <= s
    ensures r.Some? ==> s == p + r.value
  {
    if p <= s then Some(s[|p|..]) else None
  }

  function StripSuffix(s: string, p: string): (r: Option<string>)
    ensures r.Some? ==> s == r.value + p
    ensures (exists h :: s == h + p) ==> r.Some?
  {
    if |p| <= |s| && s[|s| - |p|..] == p then Some(s[..|s| - |p|]) else None
  }

  // ---- Trimming ------------------------------------------------------------------------

  predicate IsSpace(c: char) {
    c == ' ' || '\t' <= c <= '\r'
  }

  function TrimStart(s: string): string {
    if s != [] && IsSpace(s[0]) then TrimStart(s[1..]) else s
  }

  function TrimEnd(s: string): string {
    if s != [] && IsSpace(s[|s| - 1]) then TrimEnd(s[..|s| - 1]) else s
  }

  /** `str::trim`, for ASCII white space. */
  function Trim(s: string): string {
    TrimEnd(TrimStart(s))
  }

  predicate Trimmed(s: string) {
    s == [] || (!IsSpace(s[0]) && !IsSpace(s[|s| - 1]))
  }

  lemma {:induction false} TrimStartShape(s: string)
    ensures |TrimStart(s)| <= |s| && TrimStart(s) == s[|s| - |TrimStart(s)|..]
    ensures TrimStart(s) == [] || !IsSpace(TrimStart(s)[0])
  {
    if s != [] && IsSpace(s[0]) {
      TrimStartShape(s[1..]);
    }
  }

  lemma {:induction false} TrimEndShape(s: string)
    ensures |TrimEnd(s)| <= |s| && TrimEnd(s) == s[..|TrimEnd(s)|]
    ensures TrimEnd(s) == [] || !IsSpace(TrimEnd(s)[|TrimEnd(s)| - 1])
  {
    if s != [] && IsSpace(s[|s| - 1]) {
      TrimEndShape(s[..|s| - 1]);
    }
  }

  /** Trimming is the identity exactly on trimmed text, and always produces trimmed text. */
  lemma TrimFixesIff(s: string)
    ensures Trim(s) == s <==> Trimmed(s)
    ensures Trimmed(Trim(s))
  {
    TrimStartShape(s);
    TrimEndShape(TrimStart(s));
  }

  // ---- IPv4 literals -------------------------------------------------------------------

  /** One octet of `Ipv4Addr::from_str`: one to three digits, no leading zero, at most 255. */
  function ParseOctet(s: string): (r: Option<nat>)
    ensures r.Some? ==> r.value <= 255
  {
    if 1 <= |s| <= 3 && AllDigits(s) && (s[0] != '0' || |s| == 1) && Value(s) <= 255 then Some(Value(s)) else None
  }

  /** The octets of a dotted literal, `n` of them. */
  function ParseOctets(s: string, n: nat): (r: Option<seq<nat>>)
    requires n > 0
    ensures r.Some? ==> |r.value| == n && forall i | 0 <= i < n :: r.value[i] <= 255
  {
    if n == 1 then
      match ParseOctet(s)
      case None => None
      case Some(o) => Some([o])
    else
      match SplitOnce(s, ".")
      case None => None
      case Some((head, tail)) =>
        match (ParseOctet(head), ParseOctets(tail, n - 1))
        case (Some(o), Some(rest)) => Some([o] + rest)
        case _ => None
  }

  /** `str::parse::<Ipv4Addr>`. */
  function ParseIpv4(s: string): Option<seq<nat>> {
    ParseOctets(s, 4)
  }

  predicate LiteralChar(c: char) {
    IsDigit(c) || c == '.'
  }

  ghost predicate OfLiteralChars(s: string) {
    forall i | 0 <= i < |s| :: LiteralChar(s[i])
  }

  lemma SplitOnceJoins(s: string, pat: string)
    requires SplitOnce(s, pat).Some?
    ensures s == SplitOnce(s, pat).value.0 + pat + SplitOnce(s, pat).value.1
  {
  }

  lemma OctetsSplit(s: string, n: nat) returns (head: string, tail: string)
    requires n > 1 && ParseOctets(s, n).Some?
    ensures s == head + "." + tail && AllDigits(head) && ParseOctets(tail, n - 1).Some?
  {
    SplitOnceJoins(s, ".");
    head, tail := SplitOnce(s, ".").value.0, SplitOnce(s, ".").value.1;
  }

  lemma JoinChars(s: string, head: string, tail: string)
    requires s == head + "." + tail && AllDigits(head) && OfLiteralChars(tail)
    ensures OfLiteralChars(s)
  {
    forall i | 0 <= i < |s| ensures LiteralChar(s[i]) {
      if i > |head| {
        assert s[i] == tail[i - |head| - 1];
      }
    }
  }

  /** An IPv4 literal is made of digits and dots. */
  lemma {:induction false} LiteralChars(s: string, n: nat)
    requires n > 0 && ParseOctets(s, n).Some?
    ensures OfLiteralChars(s)
    decreases n
  {
    if n > 1 {
      var head, tail := OctetsSplit(s, n);
      LiteralChars(tail, n - 1);
      JoinChars(s, head, tail);
    }
  }
}
