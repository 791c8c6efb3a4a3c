/** How two release tags are ordered. */
module Version {
  import opened Wrappers

  const MAX_INT: nat := 0x7fff_ffff_ffff_ffff

  predicate Digit(c: char) { '0' <= c <= '9' }

  predicate HexDigit(c: char) { Digit(c) || 'a' <= c <= 'f' || 'A' <= c <= 'F' }

  function DigitsValue(s: string): nat
    requires forall i :: 0 <= i < |s| ==> Digit(s[i])
  {
    if s == "" then 0
    else
      assert Digit(s[|s| - 1]);
      10 * DigitsValue(s[..|s| - 1]) + (s[|s| - 1] as int - '0' as int)
  }

  /** strconv.Atoi on digits, its error ignored: what is too large is the largest. */
  function Atoi(s: string): nat
    requires forall i :: 0 <= i < |s| ==> Digit(s[i])
  {
    Clamp(DigitsValue(s))
  }

  function Clamp(n: nat): nat { if n > MAX_INT then MAX_INT else n }

  /** What is read of components written as they are. */
  function Clamped(ns: seq<nat>): seq<nat> { seq(|ns|, i requires 0 <= i < |ns| => Clamp(ns[i])) }

  /** How many characters of `s` from the start are digits. */
  function DigitRun(s: string): (n: nat)
    ensures n <= |s| && (forall i :: 0 <= i < n ==> Digit(s[i])) && (n < |s| ==> !Digit(s[n]))
  {
    if s == "" || !Digit(s[0]) then 0 else 1 + DigitRun(s[1..])
  }

  /** The dotted numbers at the start of `s`, and what follows them. */
  function Numbers(s: string): (seq<nat>, string) {
    var j := DigitRun(s);
    if j == 0 then ([], s)
    else if j < |s| && s[j] == '.' then
      var (ns, rest) := Numbers(s[j + 1..]);
      ([Atoi(s[..j])] + ns, rest)
    else ([Atoi(s[..j])], s[j..])
  }

  function SplitVersion(v: string): (seq<nat>, string) { Numbers(if v != "" && v[0] == 'v' then v[1..] else v) }

  /** The commit count of a git-describe suffix, -N-gHASH with or without -dirty. */
  function Describe(s: string): Option<nat> {
    if s == "" || s[0] != '-' then None
    else
      var j := DigitRun(s[1..]);
      var rest := s[1 + j..];
      if j == 0 || |rest| < 2 || rest[..2] != "-g" then None
      else
        var h := HexRun(rest[2..]);
        if h > 0 && (rest[2 + h..] == "" || rest[2 + h..] == "-dirty") then Some(Atoi(s[1..][..j])) else None
  }

  function HexRun(s: string): (n: nat)
    ensures n <= |s|
  {
    if s == "" || !HexDigit(s[0]) then 0 else 1 + HexRun(s[1..])
  }

  datatype Rank = Prerelease | Release | Build(commits: nat)

  function SuffixRank(s: string): Rank {
    if s == "" then Release
    else if s == "-dirty" then Build(0)
    else match Describe(s)
         case Some(n) => Build(n)
         case None => Prerelease
  }

  function CmpInt(x: int, y: int): int { if x < y then -1 else if x > y then 1 else 0 }

  function CmpString(a: string, b: string): int {
    if a == "" && b == "" then 0
    else if a == "" then -1
    else if b == "" then 1
    else if a[0] != b[0] then CmpInt(a[0] as int, b[0] as int)
    else CmpString(a[1..], b[1..])
  }

  /** Numbers that are not there are zero. */
  function CmpNumbers(a: seq<nat>, b: seq<nat>): int {
    if a == [] && b == [] then 0
    else
      var x := if a == [] then 0 else a[0];
      var y := if b == [] then 0 else b[0];
      if x != y then CmpInt(x, y) else CmpNumbers(if a == [] then [] else a[1..], if b == [] then [] else b[1..])
  }

  function Level(r: Rank): int { match r case Prerelease => -1 case Release => 0 case Build(_) => 1 }

  function CmpSuffix(a: string, b: string): int {
    var x, y := SuffixRank(a), SuffixRank(b);
    if Level(x) != Level(y) then CmpInt(Level(x), Level(y))
    else if x.Build? then CmpInt(x.commits, y.commits)
    else CmpString(a, b)
  }

  function Compare(a: string, b: string): int {
    var (an, asfx) := SplitVersion(a);
    var (bn, bsfx) := SplitVersion(b);
    var c := CmpNumbers(an, bn);
    if c != 0 then c else CmpSuffix(asfx, bsfx)
  }

  // ---------------------------------------------------------------------
  // The loops
  // ---------------------------------------------------------------------

  lemma {:induction false} RunIs(s: string, n: nat)
    requires n <= |s| && (forall i :: 0 <= i < n ==> Digit(s[i])) && (n < |s| ==> !Digit(s[n]))
    ensures DigitRun(s) == n
  {
    if n > 0 {
      assert Digit(s[0]);
      RunIs(s[1..], n - 1);
    }
  }

  /** The inner loop: past the digits from `i` on. */
  method PastDigits(s: string, i: nat) returns (j: nat)
    requires i <= |s|
    ensures i <= j <= |s| && (forall k :: i <= k < j ==> Digit(s[k])) && (j < |s| ==> !Digit(s[j]))
  {
    j := i;
    while j < |s| && Digit(s[j])
      invariant i <= j <= |s| && forall k :: i <= k < j ==> Digit(s[k])
    {
      j := j + 1;
    }
  }

  /** `nums` were read from `s`, and the rest is from `i` on. */
  ghost predicate ReadTo(s: string, nums: seq<nat>, i: nat) {
    i <= |s| && Numbers(s).0 == nums + Numbers(s[i..]).0 && Numbers(s).1 == Numbers(s[i..]).1
  }

  /** splitVersion. */
  method Split(v: string) returns (nums: seq<nat>, rest: string)
    ensures (nums, rest) == SplitVersion(v)
  {
    nums, rest := SplitNumbers(if v != "" && v[0] == 'v' then v[1..] else v);
  }

  method SplitNumbers(s: string) returns (nums: seq<nat>, rest: string)
    ensures (nums, rest) == Numbers(s)
  {
    nums := [];
    var i := 0;
    ReadNone(s);
    hide *;
    while i < |s|
      invariant i <= |s| && ReadTo(s, nums, i)
      decreases |s| - i
    {
      var j := PastDigits(s, i);
      ReadMore(s, nums, i, j);
      if j == i {
        rest := s[i..];
        return;
      }
      nums := nums + [Atoi(s[i..j])];
      if j < |s| && s[j] == '.' {
        i := j + 1;
      } else {
        rest := s[j..];
        return;
      }
    }
    ReadMore(s, nums, i, i);
    rest := s[i..];
  }

  lemma ReadNone(s: string)
    ensures ReadTo(s, [], 0)
  {
    hide Numbers;
    assert s[0..] == s;
    assert [] + Numbers(s).0 == Numbers(s).0;
  }

  lemma ReadMore(s: string, nums: seq<nat>, i: nat, j: nat)
    requires ReadTo(s, nums, i)
    requires i <= j <= |s| && (forall k :: i <= k < j ==> Digit(s[k])) && (j < |s| ==> !Digit(s[j]))
    ensures j == i ==> Numbers(s) == (nums, s[i..])
    ensures j > i && j < |s| && s[j] == '.' ==> ReadTo(s, nums + [Atoi(s[i..j])], j + 1)
    ensures j > i && !(j < |s| && s[j] == '.') ==> Numbers(s) == (nums + [Atoi(s[i..j])], s[j..])
  {
    hide Numbers, Atoi, Digit;
    NumbersAt(s, i, j);
    if j == i {
      assert nums + [] == nums;
    } else if j < |s| && s[j] == '.' {
      JoinLists(nums, Atoi(s[i..j]), Numbers(s[j + 1..]).0);
    }
  }

  lemma JoinLists(a: seq<nat>, x: nat, b: seq<nat>)
    ensures a + ([x] + b) == a + [x] + b
  {
  }

  lemma NumbersAt(s: string, i: nat, j: nat)
    requires i <= j <= |s| && (forall k :: i <= k < j ==> Digit(s[k])) && (j < |s| ==> !Digit(s[j]))
    ensures Numbers(s[i..])
            == if j == i then ([], s[i..])
               else if j < |s| && s[j] == '.' then ([Atoi(s[i..j])] + Numbers(s[j + 1..]).0, Numbers(s[j + 1..]).1)
               else ([Atoi(s[i..j])], s[j..])
  {
    var t := s[i..];
    RunIs(t, j - i);
    assert t[..j - i] == s[i..j];
    assert j < |s| ==> t[j - i] == s[j] && t[j - i + 1..] == s[j + 1..];
    assert t[j - i..] == s[j..];
    hide Atoi;
  }

  /** compareVersions. */
  method CompareVersions(a: string, b: string) returns (c: int)
    ensures c == Compare(a, b)
  {
    var an, asfx := Split(a);
    var bn, bsfx := Split(b);
    hide SplitVersion, CmpSuffix;
    var i := 0;
    while i < |an| || i < |bn|
      invariant CmpNumbers(an, bn) == CmpNumbers(Drop(an, i), Drop(bn, i))
      decreases |an| + |bn| - i
    {
      var x := if i < |an| then an[i] else 0;
      var y := if i < |bn| then bn[i] else 0;
      if x != y {
        return CmpInt(x, y);
      }
      i := i + 1;
    }
    return CmpSuffix(asfx, bsfx);
  }

  ghost function Drop(s: seq<nat>, i: nat): seq<nat> { if i < |s| then s[i..] else [] }

  // ---------------------------------------------------------------------
  // An order
  // ---------------------------------------------------------------------

  /** What three comparisons of a total preorder look like. */
  ghost predicate Ordered(aa: int, ab: int, ba: int, bc: int, ac: int) {
    && aa == 0 && -1 <= ab <= 1 && ba == -ab
    && (ab <= 0 && bc <= 0 ==> ac <= 0 && (ac == 0 ==> ab == 0 && bc == 0))
  }

  lemma {:induction false} NumbersOrdered(a: seq<nat>, b: seq<nat>, c: seq<nat>)
    ensures Ordered(CmpNumbers(a, a), CmpNumbers(a, b), CmpNumbers(b, a), CmpNumbers(b, c), CmpNumbers(a, c))
    decreases |a| + |b| + |c|
  {
    if a != [] || b != [] || c != [] {
      NumbersOrdered(if a == [] then [] else a[1..], if b == [] then [] else b[1..], if c == [] then [] else c[1..]);
    }
  }

  lemma {:induction false} StringsOrdered(a: string, b: string, c: string)
    ensures Ordered(CmpString(a, a), CmpString(a, b), CmpString(b, a), CmpString(b, c), CmpString(a, c))
  {
    if a != "" && b != "" && c != "" {
      StringsOrdered(a[1..], b[1..], c[1..]);
    } else if a != "" && b != "" {
      StringsOrdered(a[1..], b[1..], "");
    } else if a != "" {
      StringsOrdered(a[1..], "", "");
    }
  }

  lemma SuffixesOrdered(a: string, b: string, c: string)
    ensures Ordered(CmpSuffix(a, a), CmpSuffix(a, b), CmpSuffix(b, a), CmpSuffix(b, c), CmpSuffix(a, c))
  {
    StringsOrdered(a, b, c);
    hide SuffixRank, CmpString;
  }

  /** Comparing tags is a total preorder: reflexive, antisymmetric in its sign, and
      transitive. */
  lemma VersionsOrdered(a: string, b: string, c: string)
    ensures Ordered(Compare(a, a), Compare(a, b), Compare(b, a), Compare(b, c), Compare(a, c))
  {
    NumbersOrdered(SplitVersion(a).0, SplitVersion(b).0, SplitVersion(c).0);
    SuffixesOrdered(SplitVersion(a).1, SplitVersion(b).1, SplitVersion(c).1);
    hide SplitVersion, CmpNumbers, CmpSuffix;
  }

  // ---------------------------------------------------------------------
  // What it is blind to, and what it puts where
  // ---------------------------------------------------------------------

  function Decimal(n: nat): (s: string)
    ensures s != "" && (forall i :: 0 <= i < |s| ==> Digit(s[i])) && DigitsValue(s) == n
  {
    var last := [('0' as int + n % 10) as char];
    if n < 10 then
      assert last[..0] == "";
      last
    else
      var s := Decimal(n / 10) + last;
      assert s[..|s| - 1] == Decimal(n / 10);
      s
  }

  /** The numbers as a tag writes them. */
  function Dotted(ns: seq<nat>): string {
    if ns == [] then "" else if |ns| == 1 then Decimal(ns[0]) else Decimal(ns[0]) + "." + Dotted(ns[1..])
  }

  /** A tag is split into the numbers it was written from, the largest int for one
      that is larger, and its suffix. */
  lemma {:induction false} SplitDotted(ns: seq<nat>, suffix: string)
    requires ns != []
    requires suffix == "" || (!Digit(suffix[0]) && suffix[0] != '.')
    ensures Numbers(Dotted(ns) + suffix) == (Clamped(ns), suffix)
  {
    hide Numbers, DigitRun, Dotted, Decimal, Atoi, DigitsValue, Clamp, Clamped;
    var rest := if |ns| == 1 then suffix else "." + (Dotted(ns[1..]) + suffix);
    DottedFirst(ns, suffix);
    NotDigits();
    NumbersOfRun(Decimal(ns[0]), rest);
    DecimalReads(ns[0]);
    hide Digit;
    ClampedFirst(ns);
    if |ns| > 1 {
      SplitDotted(ns[1..], suffix);
      assert rest[1..] == Dotted(ns[1..]) + suffix;
    }
  }

  lemma NotDigits()
    ensures !Digit('.')
  {
  }

  lemma DecimalReads(n: nat)
    ensures Atoi(Decimal(n)) == Clamp(n)
  {
    hide Decimal, DigitsValue, Digit;
  }

  lemma ClampedFirst(ns: seq<nat>)
    requires ns != []
    ensures if |ns| == 1 then Clamped(ns) == [Clamp(ns[0])] else Clamped(ns) == [Clamp(ns[0])] + Clamped(ns[1..])
  {
    hide Clamp;
  }

  lemma DottedFirst(ns: seq<nat>, suffix: string)
    requires ns != []
    ensures Dotted(ns) + suffix == Decimal(ns[0]) + if |ns| == 1 then suffix else "." + (Dotted(ns[1..]) + suffix)
  {
    hide Decimal;
  }

  lemma NumbersOfRun(d: string, rest: string)
    requires d != "" && (forall i :: 0 <= i < |d| ==> Digit(d[i])) && (rest == "" || !Digit(rest[0]))
    ensures Numbers(d + rest)
            == if rest != "" && rest[0] == '.' then ([Atoi(d)] + Numbers(rest[1..]).0, Numbers(rest[1..]).1)
               else ([Atoi(d)], rest)
  {
    var all := d + rest;
    RunIs(all, |d|);
    assert all[..|d|] == d && all[|d|..] == rest;
    assert rest != "" ==> all[|d|] == rest[0] && all[|d| + 1..] == rest[1..];
    hide Atoi;
  }

  lemma {:induction false} ZerosAreNothing(a: seq<nat>, zeros: nat, b: seq<nat>)
    ensures CmpNumbers(a + seq(zeros, _ => 0), b) == CmpNumbers(a, b)
    decreases |a| + zeros + |b|
  {
    var z := a + seq(zeros, _ => 0);
    var b' := if b == [] then [] else b[1..];
    if a != [] {
      assert z[0] == a[0] && z[1..] == a[1..] + seq(zeros, _ => 0);
      ZerosAreNothing(a[1..], zeros, b');
    } else if zeros > 0 {
      assert z[0] == 0 && z[1..] == [] + seq(zeros - 1, _ => 0);
      ZerosAreNothing([], zeros - 1, b');
    } else {
      assert z == a;
    }
  }

  /** However many zero components are written at the end, with or without the `v`:
      the tag compares with every other as the shorter one does. */
  lemma TrailingZerosBlind(ns: seq<nat>, zeros: nat, suffix: string, other: string)
    requires ns != []
    requires suffix == "" || (!Digit(suffix[0]) && suffix[0] != '.')
    ensures Compare("v" + Dotted(ns + seq(zeros, _ => 0)) + suffix, other) == Compare("v" + Dotted(ns) + suffix, other)
    ensures Compare(Dotted(ns) + suffix, other) == Compare("v" + Dotted(ns) + suffix, other)
  {
    var long := ns + seq(zeros, _ => 0);
    SplitTag(long, suffix);
    SplitTag(ns, suffix);
    ClampedZeros(ns, zeros);
    ZerosAreNothing(Clamped(ns), zeros, SplitVersion(other).0);
    hide SplitVersion, Dotted, CmpNumbers, CmpSuffix, Clamped;
  }

  lemma ClampedZeros(ns: seq<nat>, zeros: nat)
    ensures Clamped(ns + seq(zeros, _ => 0)) == Clamped(ns) + seq(zeros, _ => 0)
  {
  }

  lemma TagParts(d: string, suffix: string)
    requires d != "" && Digit(d[0])
    ensures SplitVersion("v" + d + suffix) == Numbers(d + suffix) == SplitVersion(d + suffix)
  {
    hide Numbers;
    var tag := "v" + d + suffix;
    assert tag[0] == 'v' && tag[1..] == d + suffix;
  }

  lemma SplitTag(ns: seq<nat>, suffix: string)
    requires ns != []
    requires suffix == "" || (!Digit(suffix[0]) && suffix[0] != '.')
    ensures SplitVersion("v" + Dotted(ns) + suffix) == (Clamped(ns), suffix) == SplitVersion(Dotted(ns) + suffix)
  {
    SplitDotted(ns, suffix);
    assert Digit(Dotted(ns)[0]) by { assert Dotted(ns)[0] == Decimal(ns[0])[0]; }
    TagParts(Dotted(ns), suffix);
    hide Numbers, Dotted;
  }

  /** The `i`-th number, zero if it is not written. */
  function Component(ns: seq<nat>, i: nat): nat { if i < |ns| then ns[i] else 0 }

  lemma {:induction false} FirstDifference(a: seq<nat>, b: seq<nat>, i: nat)
    requires forall k :: 0 <= k < i ==> Component(a, k) == Component(b, k)
    requires Component(a, i) < Component(b, i)
    ensures CmpNumbers(a, b) == -1
  {
    if i > 0 {
      var a', b' := if a == [] then [] else a[1..], if b == [] then [] else b[1..];
      assert Component(a, 0) == Component(b, 0);
      forall k: nat ensures Component(a', k) == Component(a, k + 1) && Component(b', k) == Component(b, k + 1) {
      }
      if a == [] && b == [] {
        assert false;
      }
      FirstDifference(a', b', i - 1);
    }
  }

  /** The larger number at the first place where two tags differ is the newer
      version, whatever follows the numbers. */
  lemma LargerIsNewer(ns: seq<nat>, ms: seq<nat>, i: nat, s: string, t: string)
    requires ns != [] && ms != []
    requires forall x :: x in [s, t] ==> x == "" || (!Digit(x[0]) && x[0] != '.')
    requires forall k :: 0 <= k < i ==> Clamp(Component(ns, k)) == Clamp(Component(ms, k))
    requires Clamp(Component(ns, i)) < Clamp(Component(ms, i))
    ensures Compare("v" + Dotted(ns) + s, "v" + Dotted(ms) + t) == -1
    ensures Compare("v" + Dotted(ms) + t, "v" + Dotted(ns) + s) == 1
  {
    hide *;
    var a, b := "v" + Dotted(ns) + s, "v" + Dotted(ms) + t;
    assert s in [s, t] && t in [s, t];
    SplitTag(ns, s);
    SplitTag(ms, t);
    ClampedComponents(ns);
    ClampedComponents(ms);
    FirstDifference(Clamped(ns), Clamped(ms), i);
    NumbersDecide(a, b);
    VersionsOrdered(a, b, a);
    OrderedPair(Compare(a, a), Compare(a, b), Compare(b, a), Compare(b, a), Compare(a, a));
  }

  lemma ClampedComponents(ns: seq<nat>)
    ensures forall k: nat :: Component(Clamped(ns), k) == Clamp(Component(ns, k))
  {
  }

  lemma NumbersDecide(a: string, b: string)
    requires CmpNumbers(SplitVersion(a).0, SplitVersion(b).0) == -1
    ensures Compare(a, b) == -1
  {
    hide SplitVersion, CmpNumbers, CmpSuffix;
  }

  lemma OrderedPair(aa: int, ab: int, ba: int, bc: int, ac: int)
    requires Ordered(aa, ab, ba, bc, ac)
    ensures ba == -ab
  {
  }

  lemma {:induction false} FirstLetter(common: string, x: string, y: string)
    requires y != "" && (x == "" || x[0] < y[0])
    ensures CmpString(common + x, common + y) == -1
  {
    if common == "" {
      assert common + x == x && common + y == y;
    } else {
      assert (common + x)[1..] == common[1..] + x && (common + y)[1..] == common[1..] + y;
      FirstLetter(common[1..], x, y);
    }
  }

  /** At equal numbers prereleases go by their text, letter by letter. */
  lemma PrereleasesByText(ns: seq<nat>, common: string, x: string, y: string)
    requires ns != [] && y != "" && (x == "" || x[0] < y[0])
    requires forall s :: s in [common + x, common + y] ==> s != "" && !Digit(s[0]) && s[0] != '.' && SuffixRank(s).Prerelease?
    ensures Compare("v" + Dotted(ns) + (common + x), "v" + Dotted(ns) + (common + y)) == -1
  {
    var s, t := common + x, common + y;
    assert s in [s, t] && t in [s, t];
    SplitTag(ns, s);
    SplitTag(ns, t);
    FirstLetter(common, x, y);
    hide SplitVersion, Dotted, SuffixRank, CmpString, Compare;
    SameNumbers("v" + Dotted(ns) + s, "v" + Dotted(ns) + t);
  }

  /** At equal numbers a prerelease is below the release, and that below a build
      past it; builds go by their commits. */
  lemma SuffixesInOrder(ns: seq<nat>, pre: string, build: string, later: string)
    requires ns != []
    requires forall s :: s in [pre, build, later] ==> s != "" && !Digit(s[0]) && s[0] != '.'
    requires SuffixRank(pre).Prerelease? && SuffixRank(build).Build? && SuffixRank(later).Build?
    ensures Compare("v" + Dotted(ns) + pre, "v" + Dotted(ns)) == -1
    ensures Compare("v" + Dotted(ns), "v" + Dotted(ns) + build) == -1
    ensures Compare("v" + Dotted(ns) + build, "v" + Dotted(ns) + later)
            == CmpInt(SuffixRank(build).commits, SuffixRank(later).commits)
  {
    var tag := "v" + Dotted(ns);
    assert pre in [pre, build, later] && build in [pre, build, later] && later in [pre, build, later];
    SplitTag(ns, pre);
    SplitTag(ns, build);
    SplitTag(ns, later);
    SplitTag(ns, "");
    assert tag + "" == tag;
    assert SuffixRank("") == Release;
    SameNumbers(tag + pre, tag);
    SameNumbers(tag, tag + build);
    SameNumbers(tag + build, tag + later);
    hide SplitVersion, Dotted, SuffixRank, CmpString, Compare;
  }

  lemma SameNumbers(a: string, b: string)
    requires SplitVersion(a).0 == SplitVersion(b).0
    ensures Compare(a, b) == CmpSuffix(SplitVersion(a).1, SplitVersion(b).1)
  {
    var ns := SplitVersion(a).0;
    NumbersOrdered(ns, ns, ns);
    hide SplitVersion, CmpNumbers, CmpSuffix;
  }

  /** What git describe writes `n` commits past a tag. */
  ghost predicate Described(s: string, d: string, hash: string, dirty: bool, n: nat) {
    && s == "-" + d + "-g" + hash + (if dirty then "-dirty" else "")
    && d != "" && (forall i :: 0 <= i < |d| ==> Digit(d[i])) && n == Clamp(DigitsValue(d))
    && hash != "" && forall c :: c in hash ==> c in "0123456789abcdefABCDEF"
  }

  /** Builds past a tag are exactly what git describe writes, with its commit count,
      and a dirty tree on the tag itself. */
  lemma BuildsExactly(s: string, n: nat)
    ensures SuffixRank(s) == Build(n) <==>
            (s == "-dirty" && n == 0) || exists d, hash, dirty :: Described(s, d, hash, dirty, n)
  {
    if d, hash, dirty :| Described(s, d, hash, dirty, n) {
      DescribedIsBuild(s, d, hash, dirty, n);
    }
    if SuffixRank(s) == Build(n) && s != "-dirty" {
      BuildIsDescribed(s, n);
    }
    hide Described, Describe;
  }

  lemma DescribedIsBuild(s: string, d: string, hash: string, dirty: bool, n: nat)
    requires Described(s, d, hash, dirty, n)
    ensures SuffixRank(s) == Build(n)
  {
    hide HexDigit, DigitsValue, DigitRun, HexRun, Describe;
    var tail := if dirty then "-dirty" else "";
    assert s == "-" + (d + ("-g" + (hash + tail)));
    HexLetters(hash);
    DescribedRuns(d, hash, tail);
    DescribeParts(s, d, "-g" + (hash + tail), hash, tail);
    assert s[1] == d[0];
    assert "-dirty"[1] == 'd';
  }

  lemma DescribedRuns(d: string, hash: string, tail: string)
    requires (forall i :: 0 <= i < |d| ==> Digit(d[i])) && (forall i :: 0 <= i < |hash| ==> HexDigit(hash[i]))
    requires tail == "" || tail == "-dirty"
    ensures DigitRun(d + ("-g" + (hash + tail))) == |d| && HexRun(hash + tail) == |hash|
  {
    hide DigitRun, HexRun;
    RunIs(d + ("-g" + (hash + tail)), |d|);
    HexRunIs(hash, tail);
  }

  lemma HexLetters(hash: string)
    requires forall c :: c in hash ==> c in "0123456789abcdefABCDEF"
    ensures forall i :: 0 <= i < |hash| ==> HexDigit(hash[i])
  {
    HexDigits();
    hide HexDigit;
    forall i | 0 <= i < |hash| ensures HexDigit(hash[i]) {
      assert hash[i] in hash;
    }
  }

  lemma BuildIsDescribed(s: string, n: nat)
    requires Describe(s) == Some(n)
    ensures exists d, hash, dirty :: Described(s, d, hash, dirty, n)
  {
    var d, hash, tail := DescribePieces(s, n);
    hide *;
    HexTail(s, d, hash, tail, n);
  }

  lemma HexTail(s: string, d: string, hash: string, tail: string, n: nat)
    requires s == "-" + d + "-g" + hash + tail && (tail == "" || tail == "-dirty")
    requires d != "" && (forall i :: 0 <= i < |d| ==> Digit(d[i])) && n == Clamp(DigitsValue(d))
    requires hash != "" && forall c :: c in hash ==> HexDigit(c)
    ensures exists d, hash, dirty :: Described(s, d, hash, dirty, n)
  {
    HexDigits();
    hide HexDigit, Digit, DigitsValue;
    assert Described(s, d, hash, tail == "-dirty", n);
  }

  lemma DescribePieces(s: string, n: nat) returns (d: string, hash: string, tail: string)
    requires Describe(s) == Some(n)
    ensures s == "-" + d + "-g" + hash + tail && (tail == "" || tail == "-dirty")
    ensures d != "" && (forall i :: 0 <= i < |d| ==> Digit(d[i])) && n == Clamp(DigitsValue(d))
    ensures hash != "" && forall c :: c in hash ==> HexDigit(c)
  {
    hide DigitRun, HexRun, DigitsValue, Clamp, HexDigit;
    var j := DigitRun(s[1..]);
    var rest := s[1 + j..];
    var h := HexRun(rest[2..]);
    d, hash, tail := s[1..][..j], rest[2..][..h], rest[2 + h..];
    HexRunAll(rest[2..]);
    Pieces(s, d, hash, tail);
  }

  lemma HexDigits()
    ensures forall c :: HexDigit(c) <==> c in "0123456789abcdefABCDEF"
  {
  }

  lemma Pieces(s: string, d: string, hash: string, tail: string)
    requires |s| == 1 + |d| + 2 + |hash| + |tail| && s[0] == '-' && s[1..][..|d|] == d
    requires s[1 + |d|..][..2] == "-g" && s[1 + |d|..][2..][..|hash|] == hash && s[1 + |d|..][2 + |hash|..] == tail
    ensures s == "-" + d + "-g" + hash + tail
  {
    var t := s[1 + |d|..];
    assert t == t[..2] + (t[2..][..|hash|] + t[2 + |hash|..]);
    assert s == [s[0]] + s[1..][..|d|] + t;
  }

  lemma {:induction false} HexRunAll(s: string)
    ensures forall c :: c in s[..HexRun(s)] ==> HexDigit(c)
  {
    if s != "" && HexDigit(s[0]) {
      HexRunAll(s[1..]);
      var h := HexRun(s[1..]);
      assert s[..1 + h] == [s[0]] + s[1..][..h];
    }
  }

  lemma DescribeParts(s: string, d: string, rest: string, hash: string, tail: string)
    requires s == "-" + (d + rest) && rest == "-g" + (hash + tail) && (tail == "" || tail == "-dirty")
    requires d != "" && DigitRun(d + rest) == |d| && hash != "" && HexRun(hash + tail) == |hash|
    requires forall i :: 0 <= i < |d| ==> Digit(d[i])
    ensures Describe(s) == Some(Atoi(d))
  {
    assert s[1..] == d + rest && s[1..][..|d|] == d && s[1 + |d|..] == rest;
    assert rest[..2] == "-g" && rest[2..] == hash + tail && rest[2 + |hash|..] == tail;
    hide DigitRun, HexRun, Atoi;
  }

  lemma {:induction false} HexRunIs(hash: string, tail: string)
    requires forall i :: 0 <= i < |hash| ==> HexDigit(hash[i])
    requires tail == "" || !HexDigit(tail[0])
    ensures HexRun(hash + tail) == |hash|
  {
    if hash == "" {
      assert hash + tail == tail;
    } else {
      assert (hash + tail)[0] == hash[0] && (hash + tail)[1..] == hash[1..] + tail;
      HexRunIs(hash[1..], tail);
    }
  }
}
