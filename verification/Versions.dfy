/** Which of two releases is newer: the agent's comparison, and the precedence that section 11 of Semantic Versioning
    2.0.0 lays down. */
module Versions {
  import opened Records

  // ----- Texts -----

  predicate IsDigit(c: char) { '0' <= c <= '9' }

  predicate IsIdentifierChar(c: char) { IsDigit(c) || 'a' <= c <= 'z' || 'A' <= c <= 'Z' || c == '-' }

  predicate AllDigits(s: string) { s != [] && forall i :: 0 <= i < |s| ==> IsDigit(s[i]) }

  predicate IsIdentifier(s: string) { s != [] && forall i :: 0 <= i < |s| ==> IsIdentifierChar(s[i]) }

  /** A number without leading zeros. */
  predicate IsPlainNumber(s: string) { AllDigits(s) && (|s| == 1 || s[0] != '0') }

  function Digit(c: char): (d: nat)
    requires IsDigit(c)
    ensures d < 10
  {
    (c - '0') as nat
  }

  function NumberOf(s: string): nat
    requires forall i :: 0 <= i < |s| ==> IsDigit(s[i])
  {
    if s == [] then 0 else NumberOf(s[..|s| - 1]) * 10 + Digit(s[|s| - 1])
  }

  function Find(s: string, c: char): (i: nat)
    ensures i <= |s| && (i < |s| ==> s[i] == c) && (forall j :: 0 <= j < i ==> s[j] != c)
  {
    if s == [] || s[0] == c then 0 else 1 + Find(s[1..], c)
  }

  /** What precedes the first separator, and what follows it if there is one. */
  function Cut(s: string, c: char): (string, Option<string>) {
    var i := Find(s, c);
    (s[..i], if i < |s| then Some(s[i + 1..]) else None)
  }

  function Split(s: string, c: char): (parts: seq<string>)
    ensures parts != []
    decreases |s|
  {
    var i := Find(s, c);
    if i == |s| then [s] else [s[..i]] + Split(s[i + 1..], c)
  }

  // ----- The characters -----

  /** Digits, and the characters of identifiers, one by one. */
  lemma CharactersAreListed(c: char)
    ensures IsDigit(c) <==> c in {'0', '1', '2', '3', '4', '5', '6', '7', '8', '9'}
    ensures IsIdentifierChar(c) <==>
      || c in {'0', '1', '2', '3', '4', '5', '6', '7', '8', '9', '-'}
      || c in {'a', 'b', 'c', 'd', 'e', 'f', 'g', 'h', 'i', 'j', 'k', 'l', 'm',
               'n', 'o', 'p', 'q', 'r', 's', 't', 'u', 'v', 'w', 'x', 'y', 'z'}
      || c in {'A', 'B', 'C', 'D', 'E', 'F', 'G', 'H', 'I', 'J', 'K', 'L', 'M',
               'N', 'O', 'P', 'Q', 'R', 'S', 'T', 'U', 'V', 'W', 'X', 'Y', 'Z'}
  {}

  /** A number of the core is a zero, or digits that do not begin with one; an identifier is not empty. */
  lemma PartsAreListed(s: string)
    ensures IsPlainNumber(s) <==> s == "0" || (|s| > 0 && s[0] != '0' && forall i :: 0 <= i < |s| ==> IsDigit(s[i]))
    ensures IsIdentifier(s) <==> |s| > 0 && forall i :: 0 <= i < |s| ==> IsIdentifierChar(s[i])
    ensures IsIdentifier(s) ==> s != ""
  {}

  /** A version has three numbers, and its prerelease at least one identifier. */
  lemma VersionsAreListed(v: Written)
    ensures WellFormed(v) <==>
      && |v.core| == 3 && IsPlainNumber(v.core[0]) && IsPlainNumber(v.core[1]) && IsPlainNumber(v.core[2])
      && (v.pre == None || (|v.pre.value| > 0 && forall i :: 0 <= i < |v.pre.value| ==> IsIdentifier(v.pre.value[i])))
  {}

  // ----- Parsing -----

  /** The parts of a version as they are written. */
  datatype Written = Written(core: seq<string>, pre: Option<seq<string>>)

  predicate AreIdentifiers(parts: seq<string>) { forall i :: 0 <= i < |parts| ==> IsIdentifier(parts[i]) }

  predicate WellFormed(v: Written) {
    && |v.core| == 3 && (forall i :: 0 <= i < 3 ==> IsPlainNumber(v.core[i]))
    && (v.pre.Some? ==> v.pre.value != [] && AreIdentifiers(v.pre.value))
  }

  /** The agent's pattern. Leading zeros are refused in the core but not in a prerelease identifier. */
  function Parse(text: string): (v: Option<Written>)
    ensures v.Some? ==> WellFormed(v.value)
  {
    var (body, build) := Cut(text, '+');
    var (core, pre) := Cut(body, '-');
    var v := Written(Split(core, '.'), if pre.Some? then Some(Split(pre.value, '.')) else None);
    if WellFormed(v) && (build.Some? ==> AreIdentifiers(Split(build.value, '.'))) then Some(v) else None
  }

  /** A prerelease identifier as the agent compares it. */
  datatype Identifier = Numeric(value: nat) | Alphanumeric(text: string)

  datatype Version = Version(major: nat, minor: nat, patch: nat, pre: Option<seq<Identifier>>)

  function IdentifierOf(s: string): Identifier {
    if AllDigits(s) then Numeric(NumberOf(s)) else Alphanumeric(s)
  }

  function IdentifiersOf(parts: seq<string>): (ids: seq<Identifier>)
    ensures |ids| == |parts| && forall i :: 0 <= i < |parts| ==> ids[i] == IdentifierOf(parts[i])
  {
    seq(|parts|, i requires 0 <= i < |parts| => IdentifierOf(parts[i]))
  }

  /** `_semver`. */
  function Read(v: Written): Version
    requires WellFormed(v)
  {
    Version(NumberOf(v.core[0]), NumberOf(v.core[1]), NumberOf(v.core[2]),
            if v.pre.Some? then Some(IdentifiersOf(v.pre.value)) else None)
  }

  // ----- The agent's comparison -----

  function TextLess(a: string, b: string): bool {
    if b == [] then false
    else if a == [] then true
    else if a[0] != b[0] then a[0] < b[0]
    else TextLess(a[1..], b[1..])
  }

  /** Numbers come before texts, as their tags do. */
  predicate IdentifierLess(a: Identifier, b: Identifier) {
    match (a, b)
    case (Numeric(m), Numeric(n)) => m < n
    case (Numeric(_), Alphanumeric(_)) => true
    case (Alphanumeric(_), Numeric(_)) => false
    case (Alphanumeric(s), Alphanumeric(t)) => TextLess(s, t)
  }

  function IdentifiersLess(a: seq<Identifier>, b: seq<Identifier>): bool {
    if b == [] then false
    else if a == [] then true
    else if a[0] != b[0] then IdentifierLess(a[0], b[0])
    else IdentifiersLess(a[1..], b[1..])
  }

  /** `version_is_newer`, of versions that have been read. */
  predicate IsNewer(candidate: Version, current: Version) {
    if candidate.major != current.major then candidate.major > current.major
    else if candidate.minor != current.minor then candidate.minor > current.minor
    else if candidate.patch != current.patch then candidate.patch > current.patch
    else if candidate.pre.None? then current.pre.Some?
    else if current.pre.None? then false
    else IdentifiersLess(current.pre.value, candidate.pre.value)
  }

  /** `version_is_newer`: none if either text is not a version. */
  function VersionIsNewer(candidate: string, current: string): Option<bool> {
    var a, b := Parse(candidate), Parse(current);
    if a.None? || b.None? then None else Some(IsNewer(Read(a.value), Read(b.value)))
  }

  // ----- It is a strict order -----

  lemma {:induction false} TextsAreOrdered(a: string, b: string, c: string)
    ensures !TextLess(a, a)
    ensures TextLess(a, b) || TextLess(b, a) || a == b
    ensures TextLess(a, b) && TextLess(b, c) ==> TextLess(a, c)
    decreases |a| + |b| + |c|
  {
    if a != [] {
      TextsAreOrdered(a[1..], if b == [] then [] else b[1..], if c == [] then [] else c[1..]);
      if b != [] && a[0] == b[0] && a[1..] == b[1..] {
        assert a == [a[0]] + a[1..] && b == [b[0]] + b[1..];
      }
    }
  }

  lemma IdentifiersAreOrdered(a: Identifier, b: Identifier, c: Identifier)
    ensures !IdentifierLess(a, a)
    ensures IdentifierLess(a, b) || IdentifierLess(b, a) || a == b
    ensures IdentifierLess(a, b) && IdentifierLess(b, c) ==> IdentifierLess(a, c)
  {
    TextsAreOrdered(if a.Alphanumeric? then a.text else [], if b.Alphanumeric? then b.text else [],
                    if c.Alphanumeric? then c.text else []);
  }

  lemma {:induction false} ListsAreOrdered(a: seq<Identifier>, b: seq<Identifier>, c: seq<Identifier>)
    ensures !IdentifiersLess(a, a)
    ensures IdentifiersLess(a, b) || IdentifiersLess(b, a) || a == b
    ensures IdentifiersLess(a, b) && IdentifiersLess(b, c) ==> IdentifiersLess(a, c)
    decreases |a| + |b| + |c|
  {
    if a != [] {
      ListsAreOrdered(a[1..], if b == [] then [] else b[1..], if c == [] then [] else c[1..]);
      if b != [] {
        IdentifiersAreOrdered(a[0], b[0], if c == [] then b[0] else c[0]);
        IdentifiersAreOrdered(b[0], a[0], b[0]);
        if a[0] == b[0] && a[1..] == b[1..] {
          assert a == [a[0]] + a[1..] && b == [b[0]] + b[1..];
        }
      }
    }
  }

  /** Of two versions one is newer unless they are the same, never both, and newer than newer is newer. */
  lemma NewerIsAStrictOrder(a: Version, b: Version, c: Version)
    ensures !IsNewer(a, a)
    ensures IsNewer(a, b) || IsNewer(b, a) || a == b
    ensures !(IsNewer(a, b) && IsNewer(b, a))
    ensures IsNewer(a, b) && IsNewer(b, c) ==> IsNewer(a, c)
  {
    var none: seq<Identifier> := [];
    var x := if a.pre.Some? then a.pre.value else none;
    var y := if b.pre.Some? then b.pre.value else none;
    var z := if c.pre.Some? then c.pre.value else none;
    ListsAreOrdered(z, y, x);
    ListsAreOrdered(x, y, x);
    ListsAreOrdered(y, x, y);
  }

  /** Whatever updates a device accepts one after the other, each later one is newer than every earlier one, so no
      precedence ever comes back. */
  lemma {:induction false} UpdatesNeverReturn(installed: seq<Version>, i: nat, j: nat)
    requires forall k :: 0 < k < |installed| ==> IsNewer(installed[k], installed[k - 1])
    requires i < j < |installed|
    ensures IsNewer(installed[j], installed[i]) && installed[i] != installed[j]
  {
    if i < j - 1 {
      UpdatesNeverReturn(installed, i, j - 1);
      NewerIsAStrictOrder(installed[j], installed[j - 1], installed[i]);
    }
    NewerIsAStrictOrder(installed[j], installed[j], installed[j]);
  }

  // ----- Section 11 of Semantic Versioning 2.0.0 -----

  /** Lexical order by ASCII: at the first difference, or as a prefix. */
  ghost predicate LowerText(a: string, b: string) {
    exists i: nat :: i <= |a| && i < |b| && a[..i] == b[..i] && (i == |a| || a[i] < b[i])
  }

  /** Numerical order, told from the digits of numbers without leading zeros. */
  ghost predicate LowerNumber(a: string, b: string) {
    |a| < |b| || (|a| == |b| && LowerText(a, b))
  }

  /** Digits compare as numbers, other identifiers as texts, and numbers are lower. */
  ghost predicate LowerIdentifier(a: string, b: string) {
    if AllDigits(a) && AllDigits(b) then LowerNumber(a, b)
    else if AllDigits(a) || AllDigits(b) then AllDigits(a)
    else LowerText(a, b)
  }

  /** From left to right until a difference is found; a larger set of fields is higher if the others are equal. */
  ghost predicate LowerPrerelease(a: seq<string>, b: seq<string>) {
    exists i: nat :: i <= |a| && i < |b| && a[..i] == b[..i] && (i == |a| || LowerIdentifier(a[i], b[i]))
  }

  ghost predicate LowerCore(a: seq<string>, b: seq<string>)
    requires |a| == 3 && |b| == 3
  {
    || LowerNumber(a[0], b[0])
    || (a[0] == b[0] && LowerNumber(a[1], b[1]))
    || (a[0] == b[0] && a[1] == b[1] && LowerNumber(a[2], b[2]))
  }

  /** Build metadata has no part in it; a prerelease is lower than its release. */
  ghost predicate Precedes(a: Written, b: Written)
    requires |a.core| == 3 && |b.core| == 3
  {
    || LowerCore(a.core, b.core)
    || (a.core == b.core && a.pre.Some? && (b.pre.None? || LowerPrerelease(a.pre.value, b.pre.value)))
  }

  /** Section 9: numeric identifiers have no leading zeros. */
  predicate IsValidIdentifier(s: string) { IsIdentifier(s) && (AllDigits(s) ==> IsPlainNumber(s)) }

  predicate IsValid(v: Written) {
    WellFormed(v) && (v.pre.Some? ==> forall i :: 0 <= i < |v.pre.value| ==> IsValidIdentifier(v.pre.value[i]))
  }

  lemma SameFirst<T>(a: seq<T>, b: seq<T>, i: nat)
    requires 0 < i <= |a| && i <= |b| && a[..i] == b[..i]
    ensures a[0] == b[0]
  {
    assert a[0] == a[..i][0] && b[0] == b[..i][0];
  }

  lemma {:induction false} TextLessIsLowerText(a: string, b: string)
    ensures TextLess(a, b) <==> LowerText(a, b)
    decreases |a|
  {
    if a != [] && b != [] && a[0] == b[0] {
      TextLessIsLowerText(a[1..], b[1..]);
      if TextLess(a, b) {
        var i: nat :| i <= |a[1..]| && i < |b[1..]| && a[1..][..i] == b[1..][..i] &&
            (i == |a[1..]| || a[1..][i] < b[1..][i]);
        assert a[..i + 1] == [a[0]] + a[1..][..i] && b[..i + 1] == [b[0]] + b[1..][..i];
        assert LowerText(a, b);
      }
      if LowerText(a, b) {
        var i: nat :| i <= |a| && i < |b| && a[..i] == b[..i] && (i == |a| || a[i] < b[i]);
        assert i > 0;
        assert a[1..][..i - 1] == a[..i][1..] && b[1..][..i - 1] == b[..i][1..];
        assert LowerText(a[1..], b[1..]);
      }
    } else if b != [] {
      assert a[..0] == b[..0];
      if LowerText(a, b) && a != [] {
        var i: nat :| i <= |a| && i < |b| && a[..i] == b[..i] && (i == |a| || a[i] < b[i]);
        if i > 0 {
          SameFirst(a, b, i);
        }
      }
    }
  }

  // ----- Digits and the numbers they write -----

  predicate Digits(s: string) { forall i :: 0 <= i < |s| ==> IsDigit(s[i]) }

  function Power(n: nat): nat { if n == 0 then 1 else 10 * Power(n - 1) }

  lemma {:induction false} PowersGrow(m: nat, n: nat)
    requires m <= n
    ensures 1 <= Power(m) <= Power(n)
  {
    if m < n {
      PowersGrow(m, n - 1);
    } else if m > 0 {
      PowersGrow(m - 1, m - 1);
    }
  }

  lemma {:induction false} NumberBounds(s: string)
    requires Digits(s)
    ensures NumberOf(s) < Power(|s|)
    ensures s != [] && s[0] != '0' ==> Power(|s| - 1) <= NumberOf(s)
  {
    if s != [] {
      NumberBounds(s[..|s| - 1]);
      if |s| > 1 {
        assert s[..|s| - 1][0] == s[0];
      }
    }
  }

  /** Of two texts of one length the last characters decide only if the rest is the same. */
  lemma LowerByOneMore(a: string, b: string)
    requires |a| == |b| > 0
    ensures LowerText(a, b) <==>
      LowerText(a[..|a| - 1], b[..|b| - 1]) || (a[..|a| - 1] == b[..|b| - 1] && a[|a| - 1] < b[|b| - 1])
  {
    var n := |a| - 1;
    if LowerText(a, b) {
      var i: nat :| i <= |a| && i < |b| && a[..i] == b[..i] && (i == |a| || a[i] < b[i]);
      if i < n {
        assert a[..n][..i] == a[..i] && b[..n][..i] == b[..i];
        assert LowerText(a[..n], b[..n]);
      }
    }
    if LowerText(a[..n], b[..n]) {
      var i: nat :| i <= n && i < n && a[..n][..i] == b[..n][..i] && (i == n || a[..n][i] < b[..n][i]);
      assert a[..i] == a[..n][..i] && b[..i] == b[..n][..i];
      assert LowerText(a, b);
    }
    if a[..n] == b[..n] && a[n] < b[n] {
      assert LowerText(a, b);
    }
  }

  lemma OneMoreDigit(p: nat, d: nat, q: nat, e: nat)
    requires d < 10 && e < 10
    ensures p * 10 + d < q * 10 + e <==> p < q || (p == q && d < e)
    ensures p * 10 + d == q * 10 + e <==> p == q && d == e
  {}

  lemma LastCharacter(a: string, b: string)
    requires |a| == |b| > 0
    ensures a == b <==> a[..|a| - 1] == b[..|b| - 1] && a[|a| - 1] == b[|b| - 1]
  {
    assert a == a[..|a| - 1] + [a[|a| - 1]] && b == b[..|b| - 1] + [b[|b| - 1]];
  }

  lemma {:induction false} SameLengthNumbers(a: string, b: string)
    requires Digits(a) && Digits(b) && |a| == |b|
    ensures NumberOf(a) < NumberOf(b) <==> LowerText(a, b)
    ensures NumberOf(a) == NumberOf(b) <==> a == b
  {
    if a != [] {
      var n := |a| - 1;
      SameLengthNumbers(a[..n], b[..n]);
      LowerByOneMore(a, b);
      LastCharacter(a, b);
      OneMoreDigit(NumberOf(a[..n]), Digit(a[n]), NumberOf(b[..n]), Digit(b[n]));
    }
  }

  /** The digits tell the order of the numbers. */
  lemma NumbersByDigits(a: string, b: string)
    requires IsPlainNumber(a) && IsPlainNumber(b)
    ensures NumberOf(a) < NumberOf(b) <==> LowerNumber(a, b)
    ensures NumberOf(a) == NumberOf(b) <==> a == b
  {
    if |a| == |b| {
      SameLengthNumbers(a, b);
    } else if |a| < |b| {
      NumberBounds(a);
      NumberBounds(b);
      PowersGrow(|a|, |b| - 1);
    } else {
      NumberBounds(a);
      NumberBounds(b);
      PowersGrow(|b|, |a| - 1);
    }
  }

  // ----- The agent's comparison is section 11's -----

  lemma IdentifiersAgree(a: string, b: string)
    requires IsValidIdentifier(a) && IsValidIdentifier(b)
    ensures IdentifierLess(IdentifierOf(a), IdentifierOf(b)) <==> LowerIdentifier(a, b)
    ensures IdentifierOf(a) == IdentifierOf(b) <==> a == b
  {
    if AllDigits(a) && AllDigits(b) {
      NumbersByDigits(a, b);
    }
    TextLessIsLowerText(a, b);
  }

  lemma {:induction false} PrereleasesAgree(a: seq<string>, b: seq<string>)
    requires forall i :: 0 <= i < |a| ==> IsValidIdentifier(a[i])
    requires forall i :: 0 <= i < |b| ==> IsValidIdentifier(b[i])
    ensures IdentifiersLess(IdentifiersOf(a), IdentifiersOf(b)) <==> LowerPrerelease(a, b)
    decreases |a|
  {
    if a != [] && b != [] {
      IdentifiersAgree(a[0], b[0]);
      assert IdentifiersOf(a)[1..] == IdentifiersOf(a[1..]) && IdentifiersOf(b)[1..] == IdentifiersOf(b[1..]);
      if a[0] == b[0] {
        PrereleasesAgree(a[1..], b[1..]);
        LowerAfterTheSameFirst(a, b);
      } else {
        LowerAtTheFirst(a, b);
      }
    } else if b != [] {
      assert a[..0] == b[..0];
    }
  }

  lemma LowerAtTheFirst(a: seq<string>, b: seq<string>)
    requires a != [] && b != [] && a[0] != b[0]
    ensures LowerPrerelease(a, b) <==> LowerIdentifier(a[0], b[0])
  {
    assert a[..0] == b[..0];
    if LowerPrerelease(a, b) {
      var i: nat :| i <= |a| && i < |b| && a[..i] == b[..i] && (i == |a| || LowerIdentifier(a[i], b[i]));
      if i > 0 {
        SameFirst(a, b, i);
      }
    }
  }

  lemma NotLowerThanItself(a: string)
    ensures !LowerIdentifier(a, a)
  {}

  lemma LowerAfterTheSameFirst(a: seq<string>, b: seq<string>)
    requires a != [] && b != [] && a[0] == b[0]
    ensures LowerPrerelease(a, b) <==> LowerPrerelease(a[1..], b[1..])
  {
    if LowerPrerelease(a[1..], b[1..]) {
      var i: nat :| i <= |a[1..]| && i < |b[1..]| && a[1..][..i] == b[1..][..i]
        && (i == |a[1..]| || LowerIdentifier(a[1..][i], b[1..][i]));
      assert a[..i + 1] == [a[0]] + a[1..][..i] && b[..i + 1] == [b[0]] + b[1..][..i];
      assert LowerPrerelease(a, b);
    }
    if LowerPrerelease(a, b) {
      var i: nat :| i <= |a| && i < |b| && a[..i] == b[..i] && (i == |a| || LowerIdentifier(a[i], b[i]));
      NotLowerThanItself(a[0]);
      assert i > 0;
      assert a[1..][..i - 1] == a[..i][1..] && b[1..][..i - 1] == b[..i][1..];
      assert LowerPrerelease(a[1..], b[1..]);
    }
  }

  /** On valid versions the agent finds one newer exactly when section 11 gives the other a lower precedence. */
  lemma NewerIsHigherPrecedence(a: Written, b: Written)
    requires IsValid(a) && IsValid(b)
    ensures IsNewer(Read(b), Read(a)) <==> Precedes(a, b)
  {
    forall i | 0 <= i < 3
      ensures NumberOf(a.core[i]) < NumberOf(b.core[i]) <==> LowerNumber(a.core[i], b.core[i])
      ensures NumberOf(a.core[i]) == NumberOf(b.core[i]) <==> a.core[i] == b.core[i]
    {
      NumbersByDigits(a.core[i], b.core[i]);
    }
    assert a.core == b.core <==> a.core[0] == b.core[0] && a.core[1] == b.core[1] && a.core[2] == b.core[2];
    if a.pre.Some? && b.pre.Some? {
      PrereleasesAgree(a.pre.value, b.pre.value);
    }
  }

  // ----- Versions the agent accepts although they are not valid -----

  function Strip(s: string): string {
    if |s| > 1 && s[0] == '0' then Strip(s[1..]) else s
  }

  lemma {:induction false} LeadingZero(s: string)
    requires Digits(s) && s != [] && s[0] == '0'
    ensures NumberOf(s) == NumberOf(s[1..])
  {
    if |s| > 1 {
      LeadingZero(s[..|s| - 1]);
      assert s[1..][..|s[1..]| - 1] == s[..|s| - 1][1..];
    } else {
      assert s[..0] == [] && s[1..] == [];
    }
  }

  lemma {:induction false} StrippingKeepsTheNumber(s: string)
    requires AllDigits(s)
    ensures IsPlainNumber(Strip(s)) && NumberOf(Strip(s)) == NumberOf(s)
  {
    if |s| > 1 && s[0] == '0' {
      LeadingZero(s);
      StrippingKeepsTheNumber(s[1..]);
    }
  }

  function Normal(v: Written): (n: Written)
    requires WellFormed(v)
    ensures n.core == v.core && (n.pre.Some? <==> v.pre.Some?)
  {
    if v.pre.None? then v
    else
      var pre := v.pre.value;
      v.(pre := Some(seq(|pre|, i requires 0 <= i < |pre| => if AllDigits(pre[i]) then Strip(pre[i]) else pre[i])))
  }

  lemma NormalIsValid(v: Written)
    requires WellFormed(v)
    ensures IsValid(Normal(v)) && Read(Normal(v)) == Read(v)
  {
    if v.pre.Some? {
      var pre, normal := v.pre.value, Normal(v).pre.value;
      forall i | 0 <= i < |pre|
        ensures IsValidIdentifier(normal[i]) && IdentifierOf(normal[i]) == IdentifierOf(pre[i])
      {
        if AllDigits(pre[i]) {
          StrippingKeepsTheNumber(pre[i]);
        }
      }
      assert IdentifiersOf(normal) == IdentifiersOf(pre);
    }
  }

  /** Of any two texts that the agent accepts, valid or not, one is newer exactly when section 11 says so of what they
      are without leading zeros. */
  lemma EveryComparisonIsSectionEleven(candidate: string, current: string)
    ensures match (Parse(candidate), Parse(current))
            case (Some(a), Some(b)) => VersionIsNewer(candidate, current) == Some(Precedes(Normal(b), Normal(a)))
            case _ => VersionIsNewer(candidate, current) == None
  {
    if Parse(candidate).Some? && Parse(current).Some? {
      var a, b := Parse(candidate).value, Parse(current).value;
      NormalIsValid(a);
      NormalIsValid(b);
      NewerIsHigherPrecedence(Normal(b), Normal(a));
    }
  }

  // ----- Build metadata -----

  lemma {:induction false} FindInFront(s: string, rest: string, c: char)
    requires c !in s
    ensures Find(s + [c] + rest, c) == |s| && Find(s, c) == |s|
  {
    if s != [] {
      assert (s + [c] + rest)[1..] == s[1..] + [c] + rest;
      FindInFront(s[1..], rest, c);
    }
  }

  /** Build metadata changes nothing. */
  lemma BuildMetadataIsIgnored(version: string, build: string, other: string)
    requires '+' !in version && AreIdentifiers(Split(build, '.'))
    ensures VersionIsNewer(version + "+" + build, other) == VersionIsNewer(version, other)
    ensures VersionIsNewer(other, version + "+" + build) == VersionIsNewer(other, version)
  {
    var whole := version + "+" + build;
    FindInFront(version, build, '+');
    assert whole[..|version|] == version && whole[|version| + 1..] == build;
    assert version[..|version|] == version;
    assert Parse(whole) == Parse(version);
  }

  // ----- What is accepted -----

  function Join(parts: seq<string>, c: char): string
    requires parts != []
  {
    if |parts| == 1 then parts[0] else parts[0] + [c] + Join(parts[1..], c)
  }

  /** The text of a version, without build metadata. */
  function Text(v: Written): string
    requires v.core != [] && (v.pre.Some? ==> v.pre.value != [])
  {
    Join(v.core, '.') + if v.pre.Some? then "-" + Join(v.pre.value, '.') else ""
  }

  lemma JoinFront(part: string, rest: seq<string>, c: char)
    requires rest != []
    ensures Join([part] + rest, c) == part + [c] + Join(rest, c)
  {
    assert ([part] + rest)[1..] == rest;
  }

  lemma {:induction false} JoinUndoesSplit(s: string, c: char)
    ensures Join(Split(s, c), c) == s
    decreases |s|
  {
    var i := Find(s, c);
    if i < |s| {
      var rest := s[i + 1..];
      JoinUndoesSplit(rest, c);
      JoinFront(s[..i], Split(rest, c), c);
      assert s == s[..i] + [c] + rest;
    }
  }

  predicate Without(parts: seq<string>, c: char) { forall i :: 0 <= i < |parts| ==> c !in parts[i] }

  lemma {:induction false} SplitUndoesJoin(parts: seq<string>, c: char)
    requires parts != [] && Without(parts, c)
    ensures Split(Join(parts, c), c) == parts
    decreases |parts|
  {
    if |parts| == 1 {
      FindInFront(parts[0], [], c);
      assert Join(parts, c)[..|parts[0]|] == parts[0];
    } else {
      var rest := Join(parts[1..], c);
      FindInFront(parts[0], rest, c);
      var whole := parts[0] + [c] + rest;
      assert whole[..|parts[0]|] == parts[0] && whole[|parts[0]| + 1..] == rest;
      SplitUndoesJoin(parts[1..], c);
    }
  }

  lemma {:induction false} JoinKeepsOut(parts: seq<string>, c: char, d: char)
    requires parts != [] && Without(parts, d) && c != d
    ensures d !in Join(parts, c)
    decreases |parts|
  {
    if |parts| > 1 {
      JoinKeepsOut(parts[1..], c, d);
    }
  }

  lemma CutAtFirst(front: string, rest: string, c: char)
    requires c !in front
    ensures Cut(front + [c] + rest, c) == (front, Some(rest))
    ensures Cut(front, c) == (front, None)
  {
    FindInFront(front, rest, c);
    var whole := front + [c] + rest;
    assert whole[..|front|] == front && whole[|front| + 1..] == rest;
    assert front[..|front|] == front;
  }

  lemma {:induction false} FindMeansIn(s: string, c: char)
    ensures Find(s, c) < |s| <==> c in s
  {
    if s != [] && s[0] != c {
      FindMeansIn(s[1..], c);
    }
  }

  /** Well-formed parts contain no separators but the hyphens of a prerelease. */
  lemma PartsHaveNoSeparators(v: Written)
    requires WellFormed(v)
    ensures Without(v.core, '.') && Without(v.core, '-') && Without(v.core, '+')
    ensures v.pre.Some? ==> Without(v.pre.value, '.') && Without(v.pre.value, '+')
  {
    forall i | 0 <= i < 3
      ensures '.' !in v.core[i] && '-' !in v.core[i] && '+' !in v.core[i]
    {
      assert AllDigits(v.core[i]);
    }
    if v.pre.Some? {
      forall i | 0 <= i < |v.pre.value|
        ensures '.' !in v.pre.value[i] && '+' !in v.pre.value[i]
      {
        assert IsIdentifier(v.pre.value[i]);
      }
    }
  }

  lemma TextIsCut(v: Written)
    requires WellFormed(v)
    ensures Cut(Text(v), '+') == (Text(v), None)
    ensures Cut(Text(v), '-') == (Join(v.core, '.'), if v.pre.Some? then Some(Join(v.pre.value, '.')) else None)
  {
    PartsHaveNoSeparators(v);
    var core := Join(v.core, '.');
    JoinKeepsOut(v.core, '.', '-');
    JoinKeepsOut(v.core, '.', '+');
    if v.pre.Some? {
      var pre := Join(v.pre.value, '.');
      JoinKeepsOut(v.pre.value, '.', '+');
      CutAtFirst(core, pre, '-');
      assert Text(v) == core + ['-'] + pre;
    } else {
      CutAtFirst(core, [], '-');
      assert Text(v) == core;
    }
    CutAtFirst(Text(v), [], '+');
  }

  lemma PartsAreSplit(v: Written)
    requires WellFormed(v)
    ensures Split(Join(v.core, '.'), '.') == v.core
    ensures v.pre.Some? ==> Split(Join(v.pre.value, '.'), '.') == v.pre.value
  {
    PartsHaveNoSeparators(v);
    SplitUndoesJoin(v.core, '.');
    if v.pre.Some? {
      SplitUndoesJoin(v.pre.value, '.');
    }
  }

  /** The body of a well-formed version parses to it. */
  lemma TextIsRead(v: Written)
    requires WellFormed(v)
    ensures '+' !in Text(v) && Parse(Text(v)) == Some(v)
  {
    TextIsCut(v);
    PartsAreSplit(v);
    FindMeansIn(Text(v), '+');
  }

  lemma CutRejoins(s: string, c: char)
    ensures var (front, rest) := Cut(s, c); s == if rest.Some? then front + [c] + rest.value else front
  {
    var i := Find(s, c);
    if i < |s| {
      assert s == s[..i] + [c] + s[i + 1..];
    } else {
      assert s == s[..i];
    }
  }

  lemma WhatIsReadIsText(text: string)
    requires Parse(text).Some?
    ensures var (body, build) := Cut(text, '+'); Text(Parse(text).value) == body
  {
    var (body, build) := Cut(text, '+');
    var (core, pre) := Cut(body, '-');
    CutRejoins(body, '-');
    JoinUndoesSplit(core, '.');
    if pre.Some? {
      JoinUndoesSplit(pre.value, '.');
    }
  }

  /** The accepted texts are exactly the well-formed versions, with or without build metadata, and each is read as the
      parts it was written from. */
  lemma ParsingIsExact(text: string, v: Written)
    ensures Parse(text) == Some(v) <==>
      (WellFormed(v)
       && (text == Text(v)
           || exists build: string :: text == Text(v) + "+" + build && AreIdentifiers(Split(build, '.'))))
  {
    if Parse(text) == Some(v) {
      WhatIsReadIsText(text);
      CutRejoins(text, '+');
      var (body, build) := Cut(text, '+');
      if build.Some? {
        assert text == Text(v) + "+" + build.value && AreIdentifiers(Split(build.value, '.'));
      }
    }
    if WellFormed(v) {
      TextIsRead(v);
      forall build: string | text == Text(v) + "+" + build && AreIdentifiers(Split(build, '.'))
        ensures Parse(text) == Some(v)
      {
        CutAtFirst(Text(v), build, '+');
        assert text == Text(v) + ['+'] + build;
        CutAtFirst(Text(v), [], '+');
      }
    }
  }
}
