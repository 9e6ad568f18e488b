/** Go's string helpers on byte strings. A `char` stands for one byte, so multi-byte white space
    appears as its UTF-8 encoding. Case folding covers the ASCII letters. */
module Text {
  import opened Wrappers

  // --- White space ---

  predicate IsAsciiSpace(c: char) {
    9 <= c as int <= 13 || c as int == 32
  }

  // U+0085 and U+00A0.
  predicate IsSpace2(a: char, b: char) {
    a as int == 0xC2 && (b as int == 0x85 || b as int == 0xA0)
  }

  // U+1680, U+2000 to U+200A, U+2028, U+2029, U+202F, U+205F and U+3000.
  predicate IsSpace3(a: char, b: char, c: char) {
    var x, y, z := a as int, b as int, c as int;
    || (x == 0xE1 && y == 0x9A && z == 0x80)
    || (x == 0xE2 && y == 0x80 && (0x80 <= z <= 0x8A || z == 0xA8 || z == 0xA9 || z == 0xAF))
    || (x == 0xE2 && y == 0x81 && z == 0x9F)
    || (x == 0xE3 && y == 0x80 && z == 0x80)
  }

  // How many bytes the white-space rune at the start of `s` takes; 0 when there is none.
  function LeadingSpace(s: string): (n: nat)
    ensures n <= |s|
  {
    if s == "" then 0
    else if s[0] as int < 0x80 then if IsAsciiSpace(s[0]) then 1 else 0
    else if 2 <= |s| && IsSpace2(s[0], s[1]) then 2
    else if 3 <= |s| && IsSpace3(s[0], s[1], s[2]) then 3
    else 0
  }

  function TrailingSpace(s: string): (n: nat)
    ensures n <= |s|
  {
    var k := |s|;
    if k == 0 then 0
    else if s[k - 1] as int < 0x80 then if IsAsciiSpace(s[k - 1]) then 1 else 0
    else if 2 <= k && IsSpace2(s[k - 2], s[k - 1]) then 2
    else if 3 <= k && IsSpace3(s[k - 3], s[k - 2], s[k - 1]) then 3
    else 0
  }

  function TrimLeft(s: string): string {
    if LeadingSpace(s) == 0 then s else TrimLeft(s[LeadingSpace(s)..])
  }

  function TrimRight(s: string): string {
    if TrailingSpace(s) == 0 then s else TrimRight(s[..|s| - TrailingSpace(s)])
  }

  function TrimSpace(s: string): string {
    TrimRight(TrimLeft(s))
  }

  predicate Trimmed(s: string) {
    LeadingSpace(s) == 0 && TrailingSpace(s) == 0
  }

  // Starts and ends with a visible ASCII character.
  predicate Solid(s: string) {
    s != "" && 33 <= s[0] as int <= 126 && 33 <= s[|s| - 1] as int <= 126
  }

  // Free of carriage returns and line feeds.
  predicate Clean(s: string) {
    forall i | 0 <= i < |s| :: s[i] != '\r' && s[i] != '\n'
  }

  lemma TrimmedJoin(a: string, b: string)
    requires Solid(a) && Trimmed(b)
    ensures Trimmed(a + b) && Trimmed(b + a)
  {}

  lemma SolidAround(a: string, mid: string, b: string)
    requires Solid(a) && Solid(b)
    ensures Trimmed(a + mid + b) && Solid(a + mid + b)
  {}

  lemma {:induction false} TrimLeftIdempotent(s: string)
    ensures LeadingSpace(TrimLeft(s)) == 0
    ensures Clean(s) ==> Clean(TrimLeft(s))
    decreases |s|
  {
    if LeadingSpace(s) != 0 { TrimLeftIdempotent(s[LeadingSpace(s)..]); }
  }

  lemma {:induction false} TrimRightIdempotent(s: string)
    requires LeadingSpace(s) == 0
    ensures Trimmed(TrimRight(s))
    ensures Clean(s) ==> Clean(TrimRight(s))
    decreases |s|
  {
    if TrailingSpace(s) != 0 {
      var t := s[..|s| - TrailingSpace(s)];
      assert LeadingSpace(t) == 0;
      TrimRightIdempotent(t);
    }
  }

  /** TrimSpace leaves nothing to trim, introduces no line break, and is the identity on trimmed text. */
  lemma TrimSpaceTrims(s: string)
    ensures Trimmed(TrimSpace(s))
    ensures Clean(s) ==> Clean(TrimSpace(s))
    ensures Trimmed(s) ==> TrimSpace(s) == s
  {
    TrimLeftIdempotent(s);
    TrimRightIdempotent(TrimLeft(s));
  }

  // White space only.
  predicate AllSpace(s: string)
    decreases |s|
  {
    s == "" || (LeadingSpace(s) > 0 && AllSpace(s[LeadingSpace(s)..]))
  }

  lemma {:induction false} AllSpaceJoin(a: string, b: string)
    requires AllSpace(a) && AllSpace(b)
    ensures AllSpace(a + b)
    decreases |a|
  {
    if a == "" {
      assert a + b == b;
    } else {
      var k := LeadingSpace(a);
      assert LeadingSpace(a + b) == k && (a + b)[k..] == a[k..] + b;
      AllSpaceJoin(a[k..], b);
    }
  }

  lemma {:induction false} TrimLeftDrops(s: string) returns (front: string)
    ensures AllSpace(front) && s == front + TrimLeft(s)
    decreases |s|
  {
    var k := LeadingSpace(s);
    if k == 0 {
      front := "";
    } else {
      var first, tail := s[..k], s[k..];
      var t := TrimLeft(tail);
      assert TrimLeft(s) == t && s == first + tail;
      hide *;
      var rest := TrimLeftDrops(tail);
      OneSpace(s);
      AllSpaceJoin(first, rest);
      front := first + rest;
      Regroup(first, rest, t);
    }
  }

  lemma Regroup(a: string, b: string, c: string)
    ensures (a + b) + c == a + (b + c)
  {}

  lemma OneSpace(s: string)
    ensures LeadingSpace(s) > 0 ==> AllSpace(s[..LeadingSpace(s)])
    ensures TrailingSpace(s) > 0 ==> AllSpace(s[|s| - TrailingSpace(s)..])
  {
    var k, m := LeadingSpace(s), TrailingSpace(s);
    if k > 0 { assert LeadingSpace(s[..k]) == k && s[..k][k..] == ""; }
    if m > 0 {
      var last := s[|s| - m..];
      assert LeadingSpace(last) == m && last[m..] == "";
    }
  }

  lemma {:induction false} TrimRightDrops(s: string) returns (back: string)
    ensures AllSpace(back) && s == TrimRight(s) + back
    decreases |s|
  {
    var k := TrailingSpace(s);
    if k == 0 {
      back := "";
    } else {
      var init, last := s[..|s| - k], s[|s| - k..];
      var t := TrimRight(init);
      assert TrimRight(s) == t;
      hide *;
      var rest := TrimRightDrops(init);
      OneSpace(s);
      AllSpaceJoin(rest, last);
      back := rest + last;
      Regroup(t, rest, last);
    }
  }

  /** Only white space is taken away, and only at the ends. */
  lemma TrimSpaceDrops(s: string)
    ensures exists front, back :: AllSpace(front) && AllSpace(back) && s == front + TrimSpace(s) + back
  {
    var front := TrimLeftDrops(s);
    var back := TrimRightDrops(TrimLeft(s));
    assert s == front + TrimSpace(s) + back;
  }

  // Trimming the left end stops at a visible character, whatever follows.
  lemma {:induction false} TrimLeftJoin(a: string, b: string)
    requires TrimLeft(a) != "" && TrimLeft(a)[0] as int < 0x80
    ensures TrimLeft(a + b) == TrimLeft(a) + b
    decreases |a|
  {
    var k := LeadingSpace(a);
    assert LeadingSpace(a + b) == k;
    if k > 0 {
      assert (a + b)[k..] == a[k..] + b;
      TrimLeftJoin(a[k..], b);
    }
  }

  lemma {:induction false} TrimLeftIsPart(s: string)
    ensures forall c | c in TrimLeft(s) :: c in s
    decreases |s|
  {
    if LeadingSpace(s) != 0 { TrimLeftIsPart(s[LeadingSpace(s)..]); }
  }

  lemma {:induction false} TrimRightIsPrefix(s: string)
    ensures TrimRight(s) <= s
    decreases |s|
  {
    if TrailingSpace(s) != 0 { TrimRightIsPrefix(s[..|s| - TrailingSpace(s)]); }
  }

  // One ASCII space at either end is trimmed away.
  lemma TrimAsciiSpace(s: string, c: char)
    requires Trimmed(s) && IsAsciiSpace(c)
    ensures TrimSpace([c] + s) == s && TrimSpace(s + [c]) == s
  {
    assert ([c] + s)[1..] == s && LeadingSpace([c] + s) == 1;
    assert TrimLeft([c] + s) == TrimLeft(s) == s;
    TrimRightSpace(s, c);
    if s == "" {
      assert s + [c] == [c] && [c][1..] == "" && TrimLeft([c]) == "";
    } else {
      assert LeadingSpace(s + [c]) == 0;
    }
  }

  lemma TrimRightSpace(s: string, c: char)
    requires IsAsciiSpace(c)
    ensures TrimRight(s + [c]) == TrimRight(s)
  {}

  lemma TrimLineEnd(s: string)
    requires Trimmed(s)
    ensures TrimSpace(s + "\r\n") == s
  {
    var crlf := s + "\r\n";
    assert crlf == s + ['\r'] + ['\n'];
    if s == "" {
      assert crlf[1..] == "\n" && crlf[1..][1..] == "";
      assert LeadingSpace(crlf) == 1 && LeadingSpace(crlf[1..]) == 1;
      assert TrimLeft(crlf[1..]) == "";
    } else {
      assert LeadingSpace(crlf) == 0;
      TrimRightSpace(s + ['\r'], '\n');
      TrimRightSpace(s, '\r');
    }
  }

  // --- ASCII case ---

  function LowerChar(c: char): char {
    if 'A' <= c <= 'Z' then ((c as int) + 32) as char else c
  }

  function UpperChar(c: char): char {
    if 'a' <= c <= 'z' then ((c as int) - 32) as char else c
  }

  function Lower(s: string): string {
    seq(|s|, i requires 0 <= i < |s| => LowerChar(s[i]))
  }

  function Upper(s: string): string {
    seq(|s|, i requires 0 <= i < |s| => UpperChar(s[i]))
  }

  /** Letters change case at their place; everything else stays. */
  lemma CaseMeans(s: string, i: nat)
    requires i < |s|
    ensures |Lower(s)| == |s| == |Upper(s)|
    ensures var c, d, u := s[i] as int, Lower(s)[i] as int, Upper(s)[i] as int;
      && d == (if 65 <= c <= 90 then c + 32 else c)
      && u == (if 97 <= c <= 122 then c - 32 else c)
  {}

  lemma UpperClean(s: string)
    requires Clean(s)
    ensures Clean(Upper(s))
  {}

  // --- Searching and splitting ---

  predicate OccursAt(s: string, sub: string, i: int) {
    0 <= i && i + |sub| <= |s| && s[i..i + |sub|] == sub
  }

  // The first index at or after `i` where `sub` occurs, or -1.
  function FindFrom(s: string, sub: string, i: nat): (r: int)
    requires i <= |s|
    ensures r >= 0 ==> i <= r && OccursAt(s, sub, r)
    decreases |s| - i
  {
    if OccursAt(s, sub, i) then i else if i == |s| then -1 else FindFrom(s, sub, i + 1)
  }

  function Index(s: string, sub: string): (r: int)
    ensures r >= 0 ==> OccursAt(s, sub, r)
  {
    FindFrom(s, sub, 0)
  }

  lemma {:induction false} FindFromFirst(s: string, sub: string, i: nat, k: nat)
    requires i <= k && OccursAt(s, sub, k) && forall j | i <= j < k :: !OccursAt(s, sub, j)
    ensures FindFrom(s, sub, i) == k
    decreases k - i
  {
    if i < k { FindFromFirst(s, sub, i + 1, k); }
  }

  lemma {:induction false} FindFromNone(s: string, sub: string, i: nat)
    requires i <= |s| && forall j | i <= j :: !OccursAt(s, sub, j)
    ensures FindFrom(s, sub, i) == -1
    decreases |s| - i
  {
    if i < |s| { FindFromNone(s, sub, i + 1); }
  }

  lemma OccursHead(s: string, sub: string, i: int)
    requires sub != "" && 0 <= i < |s|
    ensures OccursAt(s, sub, i) ==> s[i] == sub[0]
  {}

  lemma IndexAfter(a: string, sub: string, rest: string)
    requires sub != "" && forall i | 0 <= i < |a| :: a[i] != sub[0]
    ensures Index(a + sub + rest, sub) == |a|
    ensures (a + sub + rest)[..|a|] == a && (a + sub + rest)[|a| + |sub|..] == rest
  {
    var all := a + sub + rest;
    forall j | 0 <= j < |a| ensures !OccursAt(all, sub, j) {
      OccursHead(all, sub, j);
    }
    assert OccursAt(all, sub, |a|);
    FindFromFirst(all, sub, 0, |a|);
  }

  lemma IndexAbsent(a: string, sub: string)
    requires sub != "" && forall i | 0 <= i < |a| :: a[i] != sub[0]
    ensures Index(a, sub) == -1
  {
    forall j | 0 <= j ensures !OccursAt(a, sub, j) {
      if j < |a| { OccursHead(a, sub, j); }
    }
    FindFromNone(a, sub, 0);
  }

  function Split(s: string, sep: string): seq<string>
    requires sep != ""
    decreases |s|
  {
    var k := Index(s, sep);
    if k < 0 then [s] else [s[..k]] + Split(s[k + |sep|..], sep)
  }

  // strings.SplitN with three parts.
  function Split3(s: string, sep: string): seq<string>
    requires sep != ""
  {
    var k := Index(s, sep);
    if k < 0 then [s]
    else
      var rest := s[k + |sep|..];
      var m := Index(rest, sep);
      if m < 0 then [s[..k], rest] else [s[..k], rest[..m], rest[m + |sep|..]]
  }

  function Join(lines: seq<string>, sep: string): string {
    if lines == [] then "" else if |lines| == 1 then lines[0] else lines[0] + sep + Join(lines[1..], sep)
  }

  predicate HasPrefix(s: string, prefix: string) {
    |prefix| <= |s| && s[..|prefix|] == prefix
  }

  function TrimPrefix(s: string, prefix: string): string {
    if HasPrefix(s, prefix) then s[|prefix|..] else s
  }

  // --- Decimal numbers ---

  const MAX_INT64 := 0x7FFF_FFFF_FFFF_FFFF

  function Digit(d: nat): char
    requires d < 10
  {
    (48 + d) as char
  }

  predicate IsDigit(c: char) { '0' <= c <= '9' }

  predicate AllDigits(s: string) {
    forall i | 0 <= i < |s| :: IsDigit(s[i])
  }

  function Natoa(n: nat): (s: string)
    ensures s != "" && AllDigits(s)
  {
    if n < 10 then [Digit(n)] else Natoa(n / 10) + [Digit(n % 10)]
  }

  function Itoa(n: int): string {
    if n < 0 then "-" + Natoa(-n) else Natoa(n)
  }

  function DigitsValue(s: string): nat
    requires AllDigits(s)
  {
    if s == "" then 0
    else
      var last := s[|s| - 1];
      assert IsDigit(last);
      10 * DigitsValue(s[..|s| - 1]) + (last as int - 48)
  }

  // strconv.Atoi: an optional sign, at least one digit, nothing else, and a value that fits 64 bits.
  function Atoi(s: string): Option<int> {
    var negative := s != "" && s[0] == '-';
    var digits := if s != "" && (s[0] == '-' || s[0] == '+') then s[1..] else s;
    if digits == "" || !AllDigits(digits) then None
    else
      var n: int := DigitsValue(digits);
      var v := if negative then -n else n;
      if -MAX_INT64 - 1 <= v <= MAX_INT64 then Some(v) else None
  }

  lemma {:induction false} NatoaValue(n: nat)
    ensures DigitsValue(Natoa(n)) == n
  {
    if n >= 10 {
      NatoaValue(n / 10);
      assert Natoa(n)[..|Natoa(n)| - 1] == Natoa(n / 10);
    }
  }

  /** Atoi reads back what %d prints. */
  lemma AtoiItoa(n: int)
    requires -MAX_INT64 - 1 <= n <= MAX_INT64
    ensures Atoi(Itoa(n)) == Some(n)
  {
    NatoaValue(if n < 0 then -n else n);
    if n < 0 { assert Itoa(n)[1..] == Natoa(-n); }
  }

  /** A sign may be given, and what is too large for 64 bits is no number. */
  lemma AtoiSigned(n: int)
    requires 0 <= n
    ensures Atoi("+" + Natoa(n)) == Atoi(Natoa(n)) == if n <= MAX_INT64 then Some(n) else None
    ensures Atoi("-" + Natoa(n)) == if n <= MAX_INT64 + 1 then Some(-n) else None
  {
    NatoaValue(n);
    assert ("+" + Natoa(n))[1..] == Natoa(n) == ("-" + Natoa(n))[1..];
  }

  /** Leading zeros do not matter; nothing, a sign alone or any other character is no number. */
  lemma AtoiCases(s: string, i: nat)
    ensures AllDigits(s) && s != "" ==> Atoi("0" + s) == Atoi(s)
    ensures i < |s| && !IsDigit(s[i]) && (i > 0 || (s[0] != '-' && s[0] != '+')) ==> Atoi(s) == None
    ensures Atoi("") == Atoi("-") == Atoi("+") == None
  {
    if AllDigits(s) { LeadingZero(s); }
    if 0 < i < |s| && !IsDigit(s[i]) { assert s[1..][i - 1] == s[i]; }
  }

  lemma {:induction false} LeadingZero(s: string)
    requires AllDigits(s)
    ensures AllDigits("0" + s) && DigitsValue("0" + s) == DigitsValue(s)
  {
    if s == "" {
      assert "0" + s == "0" && "0"[..0] == "";
    } else {
      LeadingZero(s[..|s| - 1]);
      assert ("0" + s)[..|s|] == "0" + s[..|s| - 1];
    }
  }

  lemma ItoaSolid(n: int)
    ensures Solid(Itoa(n)) && Clean(Itoa(n)) && forall i | 0 <= i < |Itoa(n)| :: Itoa(n)[i] != ' '
  {}
}
