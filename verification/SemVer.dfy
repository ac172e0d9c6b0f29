/** The strict MAJOR.MINOR.PATCH parser, with the canonical decimal printer it inverts. A version
    string is a string of bytes. */
module SemVer {
  import opened Base

  const U32_MAX: nat := 0xFFFF_FFFF
  const MIN_LENGTH: nat := 5
  const MAX_LENGTH: nat := 32

  datatype Version = Version(major: nat, minor: nat, patch: nat)

  ghost predicate InRange(v: Version) {
    v.major <= U32_MAX && v.minor <= U32_MAX && v.patch <= U32_MAX
  }

  /** Precedence: numeric, component by component. */
  predicate Less(v: Version, w: Version) {
    || v.major < w.major
    || (v.major == w.major && (v.minor < w.minor || (v.minor == w.minor && v.patch < w.patch)))
  }

  function Digit(d: nat): char
    requires d < 10
  {
    '0' + d as char
  }

  predicate IsDigit(c: char) { '0' <= c <= '9' }

  /** Decimal notation without leading zeros. */
  function Dec(n: nat): string {
    if n < 10 then [Digit(n)] else Dec(n / 10) + [Digit(n % 10)]
  }

  function Print(v: Version): string {
    Dec(v.major) + "." + Dec(v.minor) + "." + Dec(v.patch)
  }

  // ----- the scanner -----

  /** The components read so far, the one being read, and how many digits of it were seen. */
  datatype Scanner = Scanner(parts: seq<nat>, part: nat, digits: nat)

  const START: Scanner := Scanner([0, 0, 0], 0, 0)

  /** One byte. The digit comes out as a number; a leading zero, an overflow, an empty component, a
      fourth component and any other byte are refused. */
  function ScanChar(st: Scanner, c: char): Option<Scanner>
    requires st.part < |st.parts|
  {
    if c == '.' then
      if st.part == 2 || st.digits == 0 then None
      else if st.part + 1 < |st.parts| then Some(Scanner(st.parts, st.part + 1, 0)) else None
    else if !IsDigit(c) || (st.digits > 0 && st.parts[st.part] == 0) then None
    else
      var v := st.parts[st.part] * 10 + (c as int - '0' as int);
      if v > U32_MAX then None else Some(Scanner(st.parts[st.part := v], st.part, st.digits + 1))
  }

  ghost predicate Shape(st: Scanner) { |st.parts| == 3 && st.part < 3 }

  function Scan(s: string): (r: Option<Scanner>)
    ensures r.Some? ==> Shape(r.value)
  {
    if s == "" then Some(START)
    else
      match Scan(s[..|s| - 1])
      case None => None
      case Some(st) => ScanChar(st, s[|s| - 1])
  }

  function Finish(st: Scanner): Result<Version>
    requires |st.parts| == 3
  {
    if st.part == 2 && st.digits > 0 then Ok(Version(st.parts[0], st.parts[1], st.parts[2])) else Err(InvalidVersion)
  }

  function Parse(s: string): Result<Version> {
    if !(MIN_LENGTH <= |s| <= MAX_LENGTH) then Err(InvalidVersion)
    else match Scan(s) case None => Err(InvalidVersion) case Some(st) => Finish(st)
  }

  lemma ScanNext(s: string, i: nat)
    requires i < |s|
    ensures Scan(s[..i + 1]) == match Scan(s[..i]) case None => None case Some(st) => ScanChar(st, s[i])
  {
    assert s[..i + 1][..i] == s[..i];
  }

  /** The parser as deployed: one pass over the bytes. */
  method ParseVersion(s: string) returns (r: Result<Version>)
    ensures r == Parse(s)
  {
    if !(MIN_LENGTH <= |s| <= MAX_LENGTH) { return Err(InvalidVersion); }
    var parts: seq<nat> := [0, 0, 0];
    var part, digits := 0, 0;
    assert Scan(s[..0]) == Some(START);
    hide Scan;
    for i := 0 to |s|
      invariant |parts| == 3 && part < 3
      invariant Scan(s[..i]) == Some(Scanner(parts, part, digits))
    {
      ScanNext(s, i);
      if Scan(s[..i + 1]) == None {
        NeverRecovers(s, i + 1);
      }
      if s[i] == '.' {
        if part == 2 || digits == 0 { return Err(InvalidVersion); }
        part, digits := part + 1, 0;
      } else {
        if !IsDigit(s[i]) || (digits > 0 && parts[part] == 0) { return Err(InvalidVersion); }
        var v := parts[part] * 10 + (s[i] as int - '0' as int);
        if v > U32_MAX { return Err(InvalidVersion); }
        parts := parts[part := v];
        digits := digits + 1;
      }
    }
    assert s[..|s|] == s;
    if part != 2 || digits == 0 { return Err(InvalidVersion); }
    return Ok(Version(parts[0], parts[1], parts[2]));
  }

  lemma {:induction false} NeverRecovers(s: string, i: nat)
    requires i <= |s| && Scan(s[..i]) == None
    ensures Scan(s) == None
    decreases |s| - i
  {
    if i == |s| {
      assert s[..i] == s;
    } else {
      assert s[..i + 1][..i] == s[..i];
      NeverRecovers(s, i + 1);
    }
  }

  // ----- what the scanner has read -----

  ghost function Joined(parts: seq<nat>, n: nat): string
    requires n <= |parts|
  {
    if n == 0 then "" else Joined(parts, n - 1) + Dec(parts[n - 1]) + "."
  }

  /** The text a scanner state stands for. */
  ghost function Text(st: Scanner): string
    requires Shape(st)
  {
    Joined(st.parts, st.part) + if st.digits == 0 then "" else Dec(st.parts[st.part])
  }

  /** States the scanner can be in. */
  ghost predicate Sound(st: Scanner) {
    && Shape(st)
    && (forall i :: 0 <= i < 3 ==> st.parts[i] <= U32_MAX)
    && (forall i :: st.part < i < 3 ==> st.parts[i] == 0)
    && (st.digits == 0 ==> st.parts[st.part] == 0)
    && (st.digits > 0 ==> st.digits == |Dec(st.parts[st.part])|)
  }

  lemma {:induction false} JoinedSame(p: seq<nat>, q: seq<nat>, n: nat)
    requires n <= |p| && n <= |q| && p[..n] == q[..n]
    ensures Joined(p, n) == Joined(q, n)
  {
    if n > 0 {
      assert p[..n - 1] == p[..n][..n - 1] && q[..n - 1] == q[..n][..n - 1];
      assert p[n - 1] == p[..n][n - 1] && q[n - 1] == q[..n][n - 1];
      JoinedSame(p, q, n - 1);
    }
  }

  lemma DigitInverse(c: char)
    requires IsDigit(c)
    ensures Digit(c as int - '0' as int) == c
  {
  }

  /** A step of the scanner extends the text it has read by the byte it consumed. */
  lemma StepReads(st: Scanner, c: char)
    requires Sound(st) && ScanChar(st, c).Some?
    ensures Sound(ScanChar(st, c).value) && Text(ScanChar(st, c).value) == Text(st) + [c]
  {
    var next := ScanChar(st, c).value;
    if c == '.' {
      assert Joined(next.parts, next.part) == Joined(st.parts, st.part) + Dec(st.parts[st.part]) + ".";
    } else {
      DigitInverse(c);
      var v, d := st.parts[st.part], c as int - '0' as int;
      JoinedSame(st.parts, next.parts, st.part);
      if st.digits > 0 {
        assert (v * 10 + d) / 10 == v && (v * 10 + d) % 10 == d;
        assert Dec(v * 10 + d) == Dec(v) + [c];
      } else {
        assert Dec(d) == [c];
      }
    }
  }

  /** Whatever the scanner accepts is the text of the state it ends in. */
  lemma {:induction false} ScanReads(s: string)
    ensures Scan(s).Some? ==> Sound(Scan(s).value) && Text(Scan(s).value) == s
  {
    if s != "" {
      var prior := s[..|s| - 1];
      ScanReads(prior);
      if Scan(s).Some? {
        StepReads(Scan(prior).value, s[|s| - 1]);
        assert s == prior + [s[|s| - 1]];
      }
    }
  }

  /** The state before the last byte of a state's text, and that byte. */
  lemma StepBack(st: Scanner) returns (prev: Scanner, c: char)
    requires Sound(st) && (st.part > 0 || st.digits > 0)
    ensures Sound(prev) && ScanChar(prev, c) == Some(st)
    ensures Text(st) == Text(prev) + [c]
  {
    var v := st.parts[st.part];
    if st.digits == 0 {
      prev, c := Scanner(st.parts, st.part - 1, |Dec(st.parts[st.part - 1])|), '.';
    } else if v < 10 {
      prev, c := Scanner(st.parts[st.part := 0], st.part, 0), Digit(v);
      assert prev.parts[st.part := v] == st.parts;
    } else {
      prev, c := Scanner(st.parts[st.part := v / 10], st.part, st.digits - 1), Digit(v % 10);
      assert prev.parts[st.part := v] == st.parts;
      assert v / 10 * 10 + v % 10 == v;
    }
    StepReads(prev, c);
  }

  /** The scanner accepts the text of every sound state and ends in that state. */
  lemma {:induction false} ScanAccepts(st: Scanner)
    requires Sound(st)
    ensures Scan(Text(st)) == Some(st)
    decreases |Text(st)|
  {
    if st.part == 0 && st.digits == 0 {
      assert st.parts == [0, 0, 0];
    } else {
      var prev, c := StepBack(st);
      ScanAccepts(prev);
      assert Text(st)[..|Text(st)| - 1] == Text(prev);
    }
  }

  // ----- the round trips -----

  /** A 32-bit number has at most ten digits. */
  lemma DecLength(n: nat)
    requires n <= U32_MAX
    ensures 1 <= |Dec(n)| <= 10
  {
    var a := n / 10; var b := a / 10; var c := b / 10; var d := c / 10; var e := d / 10;
    Digits5(e);
    assert |Dec(d)| <= 6 && |Dec(c)| <= 7 && |Dec(b)| <= 8 && |Dec(a)| <= 9;
  }

  lemma Digits5(n: nat)
    requires n < 100_000
    ensures 1 <= |Dec(n)| <= 5
  {
    var a := n / 10; var b := a / 10; var c := b / 10; var d := c / 10;
    assert |Dec(d)| == 1;
    assert |Dec(c)| <= 2 && |Dec(b)| <= 3 && |Dec(a)| <= 4;
  }

  ghost function Finished(v: Version): Scanner {
    Scanner([v.major, v.minor, v.patch], 2, |Dec(v.patch)|)
  }

  lemma FinishedText(v: Version)
    requires InRange(v)
    ensures Sound(Finished(v)) && Text(Finished(v)) == Print(v) && 5 <= |Print(v)| <= 32
  {
    DecLength(v.major);
    DecLength(v.minor);
    DecLength(v.patch);
    var p := [v.major, v.minor, v.patch];
    assert Joined(p, 1) == Dec(v.major) + "." by { assert Joined(p, 0) == ""; }
    assert Joined(p, 2) == Joined(p, 1) + Dec(v.minor) + ".";
  }

  /** Every 32-bit triple is what its canonical notation parses to. */
  lemma ParsePrint(v: Version)
    requires InRange(v)
    ensures Parse(Print(v)) == Ok(v)
  {
    FinishedText(v);
    ScanAccepts(Finished(v));
  }

  /** Every accepted string is the canonical notation of what it parses to: no leading zeros, no
      missing or additional component, no component beyond 32 bits. */
  lemma PrintParse(s: string)
    requires Parse(s).Ok?
    ensures InRange(Parse(s).value) && Print(Parse(s).value) == s
  {
    ScanReads(s);
    var st := Scan(s).value;
    var v := Parse(s).value;
    assert st == Finished(v) by {
      assert st.parts == [v.major, v.minor, v.patch];
    }
    FinishedText(v);
  }

  /** The length limits never decide the outcome: whatever the scanner accepts is within them. */
  lemma LengthNeverDecides(s: string)
    requires Scan(s).Some? && Finish(Scan(s).value).Ok?
    ensures MIN_LENGTH <= |s| <= MAX_LENGTH
  {
    ScanReads(s);
    hide Scan, Dec;
    var st := Scan(s).value;
    var v := Version(st.parts[0], st.parts[1], st.parts[2]);
    assert st == Finished(v) by {
      assert st.parts == [v.major, v.minor, v.patch];
    }
    FinishedText(v);
  }

  /** And both limits are attained. */
  /** Digits are read as decimal digits. */
  lemma ReadsDecimals()
    ensures Parse("0.21.4096") == Ok(Version(0, 21, 4_096))
    ensures Parse("3.57.809") == Ok(Version(3, 57, 809))
  {
    ParsePrint(Version(0, 21, 4_096));
    ParsePrint(Version(3, 57, 809));
    DecimalDigits();
    hide Parse, Dec;
    assert Print(Version(0, 21, 4_096)) == "0.21.4096";
    assert Print(Version(3, 57, 809)) == "3.57.809";
  }

  lemma DecimalDigits()
    ensures Dec(4_096) == "4096" && Dec(21) == "21" && Dec(0) == "0"
    ensures Dec(3) == "3" && Dec(57) == "57" && Dec(809) == "809"
  {
    assert Dec(40) == "40" && Dec(409) == "409" && Dec(80) == "80";
  }

  lemma LengthLimitsAreTight()
    ensures |Print(Version(0, 0, 0))| == MIN_LENGTH
    ensures |Print(Version(U32_MAX, U32_MAX, U32_MAX))| == MAX_LENGTH
  {
    MaxDigits();
    assert |Dec(0)| == 1;
    hide Dec;
    assert |Print(Version(0, 0, 0))| == |Dec(0)| + 1 + |Dec(0)| + 1 + |Dec(0)|;
    assert |Print(Version(U32_MAX, U32_MAX, U32_MAX))| == |Dec(U32_MAX)| + 1 + |Dec(U32_MAX)| + 1 + |Dec(U32_MAX)|;
  }

  lemma MaxDigits()
    ensures |Dec(U32_MAX)| == 10
  {
    assert |Dec(42949)| == 5 by {
      assert |Dec(42)| == 2;
      assert |Dec(429)| == 3;
      assert |Dec(4294)| == 4;
    }
    assert |Dec(429496)| == 6;
    assert |Dec(4294967)| == 7;
    assert |Dec(42949672)| == 8;
    assert |Dec(429496729)| == 9;
  }
}
