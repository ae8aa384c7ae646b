/** Why the last capture file by name is the last one by number. */
module CaptureNames {
  import opened Bytes
  import opened Decimal
  import opened CaptureChain

  /** Dictionary order of two texts of the same length. */
  ghost predicate SortsBefore(a: string, b: string) {
    |a| == |b| && exists i: nat :: FirstDifference(a, b, i) && a[i] < b[i]
  }

  predicate FirstDifference(a: string, b: string, i: nat) {
    i < |a| && i < |b| && a[..i] == b[..i] && a[i] != b[i]
  }

  lemma {:induction false} SameValue(a: string, b: string)
    requires AllDigits(a) && AllDigits(b) && |a| == |b| && Value(a) == Value(b)
    ensures a == b
    decreases |a|
  {
    if a != "" {
      SameValue(a[..|a| - 1], b[..|b| - 1]);
      assert a == a[..|a| - 1] + [a[|a| - 1]] && b == b[..|b| - 1] + [b[|b| - 1]];
    }
  }

  lemma {:induction false} ValueOrdersDigits(a: string, b: string)
    requires AllDigits(a) && AllDigits(b) && |a| == |b| && Value(a) < Value(b)
    ensures SortsBefore(a, b)
    decreases |a|
  {
    var n := |a| - 1;
    if Value(a[..n]) < Value(b[..n]) {
      ValueOrdersDigits(a[..n], b[..n]);
      var i: nat :| FirstDifference(a[..n], b[..n], i) && a[..n][i] < b[..n][i];
      assert a[..n][..i] == a[..i] && b[..n][..i] == b[..i];
      assert FirstDifference(a, b, i);
    } else {
      SameValue(a[..n], b[..n]);
      assert FirstDifference(a, b, n);
    }
  }

  lemma {:induction false} LeadingZeros(k: nat, s: string)
    requires AllDigits(s)
    ensures AllDigits(Zeros(k) + s) && |Zeros(k) + s| == k + |s| && Value(Zeros(k) + s) == Value(s)
    decreases k, |s|
  {
    hide Value, AllDigits;
    if k == 0 {
      assert Zeros(0) + s == s;
    } else {
      LeadingZeros(k - 1, s);
      LeadingZero(Zeros(k - 1) + s);
      assert Zeros(k) + s == "0" + (Zeros(k - 1) + s);
    }
  }

  lemma {:induction false} LeadingZero(s: string)
    requires AllDigits(s)
    ensures AllDigits("0" + s) && Value("0" + s) == Value(s)
    decreases |s|
  {
    var t := "0" + s;
    if s == "" {
      assert t[..0] == "";
    } else {
      LeadingZero(s[..|s| - 1]);
      assert t[..|t| - 1] == "0" + s[..|s| - 1];
    }
  }

  function Pow10(k: nat): nat {
    if k == 0 then 1 else 10 * Pow10(k - 1)
  }

  lemma {:induction false} PrintedLength(n: nat, k: nat)
    requires k > 0 && n < Pow10(k)
    ensures |Print(n)| <= k
    decreases k
  {
    if n >= 10 {
      PrintedLength(n / 10, k - 1);
    }
  }

  lemma PaddedIsTenDigits(n: nat)
    requires n < Pow10(10)
    ensures |Padded(n)| == 10 && AllDigits(Padded(n)) && Value(Padded(n)) == n
  {
    PrintedLength(n, 10);
    PrintIsDigits(n);
    LeadingZeros(10 - |Print(n)|, Print(n));
    if |Print(n)| == 10 {
      assert Zeros(0) + Print(n) == Print(n);
    }
  }

  /** Numbers that fit the padding: the later file's name sorts after the earlier one's. */
  lemma NamesSortByNumber(base: string, m: nat, n: nat)
    requires m < n < Pow10(10)
    ensures SortsBefore(Path(base, m), Path(base, n))
  {
    PaddedIsTenDigits(m);
    PaddedIsTenDigits(n);
    ValueOrdersDigits(Padded(m), Padded(n));
    SortsInside(base + "_capture_", Padded(m), Padded(n), ".jrn");
  }

  lemma SortsInside(before: string, a: string, b: string, after: string)
    requires SortsBefore(a, b)
    ensures SortsBefore(before + a + after, before + b + after)
  {
    var i: nat :| FirstDifference(a, b, i) && a[i] < b[i];
    var s, t := before + a + after, before + b + after;
    var j := |before| + i;
    assert s[..j] == before + a[..i] && t[..j] == before + b[..i];
    assert s[j] == a[i] && t[j] == b[i];
    assert FirstDifference(s, t, j);
  }

  lemma AgreesBefore(a: string, b: string, i: nat, j: nat)
    requires FirstDifference(a, b, i) && j < i
    ensures a[j] == b[j]
  {
    assert a[..i][j] == b[..i][j];
  }

  lemma SortsOneWay(a: string, b: string)
    requires SortsBefore(a, b)
    ensures !SortsBefore(b, a)
  {
    var i: nat :| FirstDifference(a, b, i) && a[i] < b[i];
    forall j: nat | FirstDifference(b, a, j) ensures b[j] > a[j] {
      if i < j {
        AgreesBefore(b, a, j, i);
      } else if j < i {
        AgreesBefore(a, b, i, j);
      }
    }
  }

  /** The directory lists names in order: the last file listed is the one with the highest number. */
  lemma LastListedIsNewest(base: string, nums: seq<nat>)
    requires nums != [] && forall i :: 0 <= i < |nums| ==> nums[i] < Pow10(10)
    requires forall i, j :: 0 <= i < j < |nums| ==> SortsBefore(Path(base, nums[i]), Path(base, nums[j]))
    ensures forall i :: 0 <= i < |nums| - 1 ==> nums[i] < nums[|nums| - 1]
  {
    var last := |nums| - 1;
    forall i | 0 <= i < last ensures nums[i] < nums[last] {
      SortsOneWay(Path(base, nums[i]), Path(base, nums[last]));
      if nums[last] < nums[i] {
        NamesSortByNumber(base, nums[last], nums[i]);
      }
    }
  }

  // ----- the number read back from a name

  const MARK: string := "_capture_"

  /** `strstr`, moved behind what was found. */
  function Behind(name: string, mark: string): Option<string>
    decreases |name|
  {
    if mark <= name then Some(name[|mark|..]) else if name == "" then None else Behind(name[1..], mark)
  }

  /** The text up to the first `c`, all of it if there is none. */
  function UpTo(s: string, c: char): string {
    if s == "" || s[0] == c then "" else [s[0]] + UpTo(s[1..], c)
  }

  /** What `BuildCaptureList` takes for the number: from the first mark to the first dot behind it. */
  function NumberText(name: string): string {
    match Behind(name, MARK) case None => "" case Some(rest) => UpTo(rest, '.')
  }

  ghost predicate Contains(s: string, mark: string) {
    exists i :: 0 <= i && i + |mark| <= |s| && s[i..][..|mark|] == mark
  }

  /**
   * The ten digits are what is taken for the number of every file exactly when the base name, with
   * the underscore that follows it, does not hold the mark itself. Names are listed without a folder.
   */
  lemma NumberIsFoundExactly(base: string)
    ensures (forall n: nat :: n < Pow10(10) ==> NumberText(Path(base, n)) == Padded(n))
      <==> !Contains(base + "_", MARK)
  {
    if Contains(base + "_", MARK) {
      var n := EarlierMarkIsFound(base);
    } else {
      forall n: nat | n < Pow10(10) ensures NumberText(Path(base, n)) == Padded(n) {
        MarkIsFound(base, Padded(n) + ".jrn");
        assert Path(base, n) == base + MARK + (Padded(n) + ".jrn");
        PaddedIsTenDigits(n);
        UpToStops(Padded(n), ".jrn", '.');
      }
    }
  }

  /** The number read from it is then the file's own exactly while it fits in a long. */
  lemma NumberReadFromName(base: string, n: nat)
    requires n < Pow10(10) && !Contains(base + "_", MARK)
    ensures Atol(NumberText(Path(base, n))) == n <==> n <= LONG_MAX
  {
    NumberIsFoundExactly(base);
    PaddedIsTenDigits(n);
    LeadingDigitsOfDigits(Padded(n));
    assert !IsBlank(Padded(n)[0]);
  }

  lemma {:induction false} MarkIsFound(base: string, t: string)
    requires !Contains(base + "_", MARK)
    ensures Behind(base + MARK + t, MARK) == Some(t)
    decreases |base|
  {
    var name := base + MARK + t;
    if base == "" {
      assert name == MARK + t;
    } else {
      assert !(MARK <= name) by {
        if MARK <= name {
          MarkOverlaps(base, t);
        }
      }
      assert name[1..] == base[1..] + MARK + t;
      ContainsBehind(base + "_", MARK);
      assert (base + "_")[1..] == base[1..] + "_";
      MarkIsFound(base[1..], t);
    }
  }

  lemma ContainsBehind(s: string, mark: string)
    requires s != ""
    ensures Contains(s[1..], mark) ==> Contains(s, mark)
  {
    if i :| 0 <= i && i + |mark| <= |s[1..]| && s[1..][i..][..|mark|] == mark {
      assert s[i + 1..] == s[1..][i..];
    }
  }

  /** The mark overlaps itself in nothing but its underscores. */
  lemma MarkOverlaps(base: string, t: string)
    requires base != "" && MARK <= base + MARK + t
    ensures Contains(base + "_", MARK)
  {
    var name := base + MARK + t;
    assert name[|base|] == '_';
    assert |base| < 9 ==> name[|base|] == MARK[|base|];
    assert (base + "_")[0..][..9] == name[..9];
  }

  lemma {:induction false} UpToStops(s: string, rest: string, c: char)
    requires c !in s && rest != "" && rest[0] == c
    ensures UpTo(s + rest, c) == s
  {
    if s == "" {
      assert s + rest == rest;
    } else {
      assert (s + rest)[1..] == s[1..] + rest;
      UpToStops(s[1..], rest, c);
    }
  }

  lemma {:induction false} UpToIgnores(s: string, rest: string, c: char)
    requires c in s
    ensures UpTo(s + rest, c) == UpTo(s, c)
  {
    assert (s + rest)[1..] == s[1..] + rest;
    if s[0] != c {
      UpToIgnores(s[1..], rest, c);
    }
  }

  /** With a mark in the base name, some file's number is not found. */
  lemma EarlierMarkIsFound(base: string) returns (n: nat)
    requires Contains(base + "_", MARK)
    ensures n < Pow10(10) && NumberText(Path(base, n)) != Padded(n)
  {
    hide Contains, Behind, UpTo, Padded, Value;
    var r := EarlierMark(base);
    n := 1;
    PaddedIsTenDigits(1);
    NumberTextIs(base, r, 1);
    if '.' in r {
      PaddedIsTenDigits(2);
      NumberTextIs(base, r, 2);
      UpToIgnores(r, Padded(1) + ".jrn", '.');
      UpToIgnores(r, Padded(2) + ".jrn", '.');
      n := if UpTo(r, '.') == Padded(1) then 2 else 1;
    } else {
      assert r + (Padded(1) + ".jrn") == (r + Padded(1)) + ".jrn";
      UpToStops(r + Padded(1), ".jrn", '.');
    }
  }

  lemma NumberTextIs(base: string, r: string, n: nat)
    requires forall t :: Behind(base + MARK + t, MARK) == Some(r + t)
    ensures NumberText(Path(base, n)) == UpTo(r + (Padded(n) + ".jrn"), '.')
  {
    assert Path(base, n) == base + MARK + (Padded(n) + ".jrn");
  }

  lemma {:induction false} EarlierMark(base: string) returns (r: string)
    requires Contains(base + "_", MARK)
    ensures r != "" && forall t :: Behind(base + MARK + t, MARK) == Some(r + t)
    decreases |base|
  {
    hide Behind, MARK;
    if MARK <= base + "_" {
      r := FirstMark(base);
    } else {
      LaterMark(base);
      r := EarlierMark(base[1..]);
      forall t ensures Behind(base + MARK + t, MARK) == Some(r + t) {
        MarkIsLater(base, t);
      }
    }
  }

  lemma FirstMark(base: string) returns (r: string)
    requires MARK <= base + "_"
    ensures r != "" && forall t :: Behind(base + MARK + t, MARK) == Some(r + t)
  {
    r := (base + MARK)[9..];
    forall t ensures Behind(base + MARK + t, MARK) == Some(r + t) {
      var name := base + MARK + t;
      assert name[..9] == (base + "_")[..9] && name[9..] == r + t;
    }
  }

  lemma LaterMark(base: string)
    requires Contains(base + "_", MARK) && !(MARK <= base + "_")
    ensures |base| >= 9 && Contains(base[1..] + "_", MARK)
  {
    var s := base + "_";
    var i :| 0 <= i && i + |MARK| <= |s| && s[i..][..|MARK|] == MARK;
    assert i != 0 && s[i..] == s[1..][i - 1..] && s[1..] == base[1..] + "_";
  }

  lemma MarkIsLater(base: string, t: string)
    requires |base| >= 9 && !(MARK <= base + "_")
    ensures Behind(base + MARK + t, MARK) == Behind(base[1..] + MARK + t, MARK)
  {
    var name := base + MARK + t;
    assert name[..9] == (base + "_")[..9] && name[1..] == base[1..] + MARK + t;
  }
}
