/** Version strings and their order (server/internal/registryservice/semver.go; section 11 of Semantic
    Versioning 2.0.0). Components are Go ints, 64 bits wide, so differences and bumps wrap around. */
module SemVer {
  import opened Common

  datatype Version = Version(major: int, minor: int, patch: int)

  predicate FitsVersion(v: Version) { Fits(v.major) && Fits(v.minor) && Fits(v.patch) }

  /** What Semantic Versioning asks of components, and what a caller can check. */
  predicate Plain(v: Version) { FitsVersion(v) && 0 <= v.major && 0 <= v.minor && 0 <= v.patch }

  // ---- Decimal numbers ----

  predicate IsDigit(c: char) { '0' <= c <= '9' }

  predicate AllDigits(s: string) { forall i :: 0 <= i < |s| ==> IsDigit(s[i]) }

  function DigitsValue(s: string): nat
    requires AllDigits(s)
  {
    if s == "" then 0 else 10 * DigitsValue(s[..|s| - 1]) + (s[|s| - 1] - '0') as nat
  }

  /** strconv.Atoi: an optional sign, at least one digit, and a value that fits. Leading zeros are accepted. */
  function Atoi(s: string): Option<int> {
    var signed := s != "" && (s[0] == '-' || s[0] == '+');
    var digits := if signed then s[1..] else s;
    if digits == "" || !AllDigits(digits) then None
    else
      var magnitude: int := DigitsValue(digits);
      var n := if signed && s[0] == '-' then -magnitude else magnitude;
      if Fits(n) then Some(n) else None
  }

  function Digits(n: nat): string {
    if n < 10 then ['0' + n as char] else Digits(n / 10) + ['0' + (n % 10) as char]
  }

  function Decimal(n: int): string {
    if n < 0 then "-" + Digits(-n) else Digits(n)
  }

  lemma {:induction false} DigitsAreDigits(n: nat)
    ensures Digits(n) != "" && AllDigits(Digits(n)) && DigitsValue(Digits(n)) == n
  {
    if n >= 10 {
      DigitsAreDigits(n / 10);
      assert Digits(n)[..|Digits(n)| - 1] == Digits(n / 10);
    }
  }

  lemma AtoiUndoesDecimal(n: int)
    requires Fits(n)
    ensures Atoi(Decimal(n)) == Some(n)
    ensures NoDot(Decimal(n))
  {
    var m := if n < 0 then -n else n;
    DigitsAreDigits(m);
    assert IsDigit(Digits(m)[0]);
    if n < 0 {
      assert Decimal(n)[1..] == Digits(m);
    }
  }

  // ---- Parsing and printing ----

  /** s around its first dot. */
  function Cut(s: string): Option<(string, string)> {
    if s == "" then None
    else if s[0] == '.' then Some(("", s[1..]))
    else
      var rest := Cut(s[1..]);
      if rest.None? then None else Some(([s[0]] + rest.value.0, rest.value.1))
  }

  /** Cuts at the first two dots only, so a third dot stays in the patch part and fails to parse. */
  function ParseSemver(s: string): Option<Version> {
    var first := Cut(s);
    if first.None? then None
    else
      var second := Cut(first.value.1);
      if second.None? then None
      else
        var major, minor, patch := Atoi(first.value.0), Atoi(second.value.0), Atoi(second.value.1);
        if major.Some? && minor.Some? && patch.Some? then Some(Version(major.value, minor.value, patch.value)) else None
  }

  function ToString(v: Version): string {
    Decimal(v.major) + "." + Decimal(v.minor) + "." + Decimal(v.patch)
  }

  predicate NoDot(s: string) { forall i :: 0 <= i < |s| ==> s[i] != '.' }

  lemma {:induction false} CutUndoesJoin(x: string, rest: string)
    requires NoDot(x)
    ensures Cut(x + "." + rest) == Some((x, rest))
  {
    var s := x + "." + rest;
    if x == "" {
      assert s[1..] == rest;
    } else {
      CutUndoesJoin(x[1..], rest);
      assert s[1..] == x[1..] + "." + rest;
      assert [x[0]] + x[1..] == x;
    }
  }

  lemma ParseJoined(major: string, minor: string, patch: string, v: Version)
    requires NoDot(major) && NoDot(minor)
    requires Atoi(major) == Some(v.major) && Atoi(minor) == Some(v.minor) && Atoi(patch) == Some(v.patch)
    ensures ParseSemver(major + "." + minor + "." + patch) == Some(v)
  {
    hide Atoi, Cut;
    var rest := minor + "." + patch;
    CutUndoesJoin(major, rest);
    CutUndoesJoin(minor, patch);
    assert major + "." + minor + "." + patch == major + "." + rest;
  }

  lemma ParseUndoesToString(v: Version)
    requires FitsVersion(v)
    ensures ParseSemver(ToString(v)) == Some(v)
  {
    hide Atoi, Decimal, Cut, ParseSemver;
    AtoiUndoesDecimal(v.major);
    AtoiUndoesDecimal(v.minor);
    AtoiUndoesDecimal(v.patch);
    ParseJoined(Decimal(v.major), Decimal(v.minor), Decimal(v.patch), v);
  }

  lemma {:induction false} CutIs(s: string)
    ensures Cut(s).None? <==> NoDot(s)
    ensures Cut(s).Some? ==> NoDot(Cut(s).value.0) && s == Cut(s).value.0 + "." + Cut(s).value.1
  {
    if s != "" && s[0] != '.' {
      CutIs(s[1..]);
      assert s == [s[0]] + s[1..];
    } else if s != "" {
      assert s == "" + "." + s[1..];
    }
  }

  /** Anything else is refused: what parses is three numbers joined by dots, and they are the version's components. */
  lemma ParsedIs(s: string) returns (major: string, minor: string, patch: string)
    ensures ParseSemver(s).Some? ==>
              && s == major + "." + minor + "." + patch && NoDot(major) && NoDot(minor)
              && Atoi(major) == Some(ParseSemver(s).value.major) && Atoi(minor) == Some(ParseSemver(s).value.minor)
              && Atoi(patch) == Some(ParseSemver(s).value.patch)
  {
    hide Cut, Atoi;
    major, minor, patch := "", "", "";
    CutIs(s);
    if Cut(s).Some? {
      var rest := Cut(s).value.1;
      CutIs(rest);
      if Cut(rest).Some? {
        major, minor, patch := Cut(s).value.0, Cut(rest).value.0, Cut(rest).value.1;
        assert s == major + "." + minor + "." + patch;
      }
    }
  }

  /** A number with or without a sign is read as its value, if that fits. */
  lemma AtoiReads(digits: string)
    requires digits != "" && AllDigits(digits)
    ensures var n: int := DigitsValue(digits);
            && Atoi(digits) == (if Fits(n) then Some(n) else None)
            && Atoi("+" + digits) == (if Fits(n) then Some(n) else None)
            && Atoi("-" + digits) == (if Fits(-n) then Some(-n) else None)
  {
    assert IsDigit(digits[0]);
    assert ("+" + digits)[1..] == digits && ("-" + digits)[1..] == digits;
  }

  /** And nothing but at least one digit, with or without a sign, is read as a number. */
  lemma AtoiReadsOnly(s: string) returns (digits: string)
    ensures Atoi(s).Some? ==>
              && digits != "" && AllDigits(digits)
              && (s == digits || s == "+" + digits || s == "-" + digits)
  {
    digits := "";
    if Atoi(s).Some? {
      var signed := s[0] == '-' || s[0] == '+';
      digits := if signed then s[1..] else s;
      assert s == (if signed then [s[0]] + digits else digits);
    }
  }

  /** Parsing is looser than section 2 of the standard: a plus sign is accepted, so two strings name one version. */
  lemma ParseAcceptsSign(v: Version)
    requires Plain(v)
    ensures ParseSemver("+" + ToString(v)) == Some(v)
  {
    hide Atoi, Decimal, Cut, ParseSemver;
    AtoiUndoesDecimal(v.major);
    AtoiUndoesDecimal(v.minor);
    AtoiUndoesDecimal(v.patch);
    AtoiSkipsSign(v.major);
    ParseJoined("+" + Decimal(v.major), Decimal(v.minor), Decimal(v.patch), v);
    assert "+" + ToString(v) == ("+" + Decimal(v.major)) + "." + Decimal(v.minor) + "." + Decimal(v.patch);
  }

  lemma AtoiSkipsSign(n: nat)
    requires Fits(n)
    ensures Atoi("+" + Decimal(n)) == Some(n)
  {
    DigitsAreDigits(n);
    assert ("+" + Digits(n))[1..] == Digits(n);
  }

  // ---- Order ----

  function SignOf(n: int): int { if n < 0 then -1 else if n > 0 then 1 else 0 }

  function Compare(v: Version, other: Version): int {
    if v.major != other.major then SignOf(Wrap(v.major - other.major))
    else if v.minor != other.minor then SignOf(Wrap(v.minor - other.minor))
    else SignOf(Wrap(v.patch - other.patch))
  }

  /** Precedence as section 11 defines it: the first differing component decides. */
  predicate Less(v: Version, w: Version) {
    v.major < w.major || (v.major == w.major && (v.minor < w.minor || (v.minor == w.minor && v.patch < w.patch)))
  }

  /** The difference that decides a comparison. */
  function Decider(v: Version, w: Version): int {
    if v.major != w.major then v.major - w.major
    else if v.minor != w.minor then v.minor - w.minor
    else v.patch - w.patch
  }

  lemma WrapKeepsSignIff(d: int)
    requires -0x1_0000_0000_0000_0000 < d < 0x1_0000_0000_0000_0000
    ensures SignOf(Wrap(d)) == SignOf(d) <==> Fits(d)
  {
    var m := 0x1_0000_0000_0000_0000;
    if d > MAX_INT {
      assert Wrap(d) == d - m by { assert (d - MIN_INT) == 1 * m + (d - m - MIN_INT); }
    } else if d < MIN_INT {
      assert Wrap(d) == d + m by { assert (d - MIN_INT) == (-1) * m + (d + m - MIN_INT); }
    }
  }

  /** compare orders two versions as the standard does exactly when the deciding difference does not overflow. */
  lemma CompareIsPrecedenceIff(v: Version, w: Version)
    requires FitsVersion(v) && FitsVersion(w)
    ensures Compare(v, w) == (if Less(v, w) then -1 else if Less(w, v) then 1 else 0) <==> Fits(Decider(v, w))
  {
    WrapKeepsSignIff(Decider(v, w));
  }

  lemma ComparePlain(v: Version, w: Version)
    requires Plain(v) && Plain(w)
    ensures Compare(v, w) > 0 <==> Less(w, v)
    ensures Compare(v, w) == 0 <==> v == w
  {
    CompareIsPrecedenceIff(v, w);
  }

  /** Two versions the code orders the wrong way round. */
  lemma CompareCanOverflow()
    ensures Less(Version(-1, 0, 0), Version(MAX_INT, 0, 0))
    ensures Compare(Version(MAX_INT, 0, 0), Version(-1, 0, 0)) == -1
  {
    CompareIsPrecedenceIff(Version(MAX_INT, 0, 0), Version(-1, 0, 0));
    assert Wrap(MAX_INT + 1) == MIN_INT;
  }
}
