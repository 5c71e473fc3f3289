/** The update check of `src/pages/settings.js`: dotted version strings compared
    component by component as numbers, missing components counting as 0. */
module Version {
  import opened Options
  import opened Strings

  const CurrentVersion: string := "1.0.10"

  /** `Number(p) || 0` for one component. `Number` drops the white space around the text,
      reads what is left when it is empty as 0 and when it is decimal digits with at most
      one leading sign as their value; anything else is read as `NaN`, which `|| 0` turns
      into 0. */
  function ComponentValue(p: string): int
    decreases |p|
  {
    if p != [] && IsSpace(p[0]) then ComponentValue(p[1..])
    else if p != [] && IsSpace(p[|p| - 1]) then ComponentValue(p[..|p| - 1])
    else SignedDigitsValue(p)
  }

  /** The value of text without white space around it: digits with at most one sign. */
  function SignedDigitsValue(t: string): int {
    if AllDigits(t) then DigitsValue(t)
    else if |t| > 1 && t[0] == '+' && AllDigits(t[1..]) then DigitsValue(t[1..])
    else if |t| > 1 && t[0] == '-' && AllDigits(t[1..]) then -(DigitsValue(t[1..]) as int)
    else 0
  }

  /** What a component reads as is decided by its trimmed text alone. */
  lemma {:induction false} ComponentValueOfTrim(p: string)
    ensures ComponentValue(p) == ComponentValue(Trim(p))
    decreases |p|
  {
    if p != [] && IsSpace(p[0]) {
      var q := p[1..];
      ComponentValueOfTrim(q);
      assert [p[0]] + q + [] == p;
      TrimIgnoresPadding([p[0]], q, []);
      assert Trim(q) == Trim(p);
    } else if p != [] && IsSpace(p[|p| - 1]) {
      var q := p[..|p| - 1];
      ComponentValueOfTrim(q);
      assert [] + q + [p[|p| - 1]] == p;
      TrimIgnoresPadding([], q, [p[|p| - 1]]);
      assert Trim(q) == Trim(p);
    } else {
      TrimLeavesUnpadded(p);
    }
  }

  /** A component of digits alone reads as their decimal value, leading zeros and all. */
  lemma DigitComponent(p: string)
    requires AllDigits(p)
    ensures ComponentValue(p) == DigitsValue(p)
  {
    assert p != [] ==> !IsSpace(p[0]) && !IsSpace(p[|p| - 1]);
  }

  /** Every integer written in decimal, a minus sign in front when it is negative, reads
      back as itself. */
  lemma ComponentReadsIntegers(n: int)
    ensures ComponentValue(IntToString(n)) == n
  {
    var s := IntToString(n);
    if n >= 0 {
      DigitComponent(s);
      DigitsOfNat(n);
    } else {
      var d := NatToString(-n);
      DigitsOfNat(-n);
      assert s[1..] == d;
      assert s[0] == '-' && !IsSpace(s[|s| - 1]);
    }
  }

  /** White space around a component does not change its value. */
  lemma ComponentIgnoresPadding(w1: string, p: string, w2: string)
    requires forall i :: 0 <= i < |w1| ==> IsSpace(w1[i])
    requires forall i :: 0 <= i < |w2| ==> IsSpace(w2[i])
    ensures ComponentValue(w1 + p + w2) == ComponentValue(p)
  {
    ComponentValueOfTrim(w1 + p + w2);
    ComponentValueOfTrim(p);
    TrimIgnoresPadding(w1, p, w2);
  }

  /** `v.split('.').map(Number)`, each `NaN` read as 0. */
  function Components(v: string): (r: seq<int>)
    ensures |r| == |Split(v, '.')|
    ensures forall i :: 0 <= i < |r| ==> r[i] == ComponentValue(Split(v, '.')[i])
  {
    var parts := Split(v, '.');
    seq(|parts|, i requires 0 <= i < |parts| => ComponentValue(parts[i]))
  }

  /** `p[i] || 0`: components past the end count as 0. */
  function At(p: seq<int>, i: nat): int {
    if i < |p| then p[i] else 0
  }

  function Max(a: nat, b: nat): nat {
    if a >= b then a else b
  }

  /** The comparison loop from index `i` on. */
  function NewerFrom(pa: seq<int>, pb: seq<int>, i: nat): bool
    decreases Max(|pa|, |pb|) - i
  {
    if i >= Max(|pa|, |pb|) then false
    else if At(pa, i) > At(pb, i) then true
    else if At(pa, i) < At(pb, i) then false
    else NewerFrom(pa, pb, i + 1)
  }

  /** `isNewer(a, b)`. */
  function Newer(a: string, b: string): bool {
    NewerFrom(Components(a), Components(b), 0)
  }

  /** `pa` first exceeds `pb` at index `k`, the two agreeing on indices `i .. k-1`. */
  predicate FirstExceedsAt(pa: seq<int>, pb: seq<int>, i: nat, k: nat) {
    i <= k && (forall j :: i <= j < k ==> At(pa, j) == At(pb, j)) && At(pa, k) > At(pb, k)
  }

  /** The loop decides exactly the first index where the zero-padded components differ:
      `a` is newer when it is larger there. */
  lemma {:induction false} NewerFromIff(pa: seq<int>, pb: seq<int>, i: nat)
    ensures NewerFrom(pa, pb, i) <==> exists k :: FirstExceedsAt(pa, pb, i, k)
    decreases Max(|pa|, |pb|) - i
  {
    if i >= Max(|pa|, |pb|) {
      forall k: nat ensures !FirstExceedsAt(pa, pb, i, k) {
        if i <= k {
          assert At(pa, k) == 0;
        }
      }
    } else if At(pa, i) > At(pb, i) {
      assert FirstExceedsAt(pa, pb, i, i);
    } else if At(pa, i) < At(pb, i) {
      forall k: nat ensures !FirstExceedsAt(pa, pb, i, k) {
        if i < k {
          assert At(pa, i) != At(pb, i);
        }
      }
    } else {
      var next := i + 1;
      NewerFromIff(pa, pb, next);
      if exists k :: FirstExceedsAt(pa, pb, i, k) {
        var k :| FirstExceedsAt(pa, pb, i, k);
        assert k != i;
        assert FirstExceedsAt(pa, pb, next, k);
      }
      if exists k :: FirstExceedsAt(pa, pb, next, k) {
        var k :| FirstExceedsAt(pa, pb, next, k);
        assert FirstExceedsAt(pa, pb, i, k);
      }
    }
  }

  /** Whether `a` is newer than `b` depends only on the zero-padded components. */
  lemma {:induction false} NewerByPadded(pa: seq<int>, pb: seq<int>, qa: seq<int>, qb: seq<int>)
    requires forall j: nat :: At(pa, j) == At(qa, j) && At(pb, j) == At(qb, j)
    ensures NewerFrom(pa, pb, 0) == NewerFrom(qa, qb, 0)
  {
    NewerFromIff(pa, pb, 0);
    NewerFromIff(qa, qb, 0);
    if k :| FirstExceedsAt(pa, pb, 0, k) {
      assert FirstExceedsAt(qa, qb, 0, k);
    }
    if k :| FirstExceedsAt(qa, qb, 0, k) {
      assert FirstExceedsAt(pa, pb, 0, k);
    }
  }

  /** No version is newer than itself. */
  lemma {:induction false} NewerIrreflexive(a: string)
    ensures !Newer(a, a)
  {
    var p := Components(a);
    NewerFromIff(p, p, 0);
  }

  /** Of two versions at most one is newer than the other. */
  lemma {:induction false} NewerAsymmetric(a: string, b: string)
    ensures !(Newer(a, b) && Newer(b, a))
  {
    var pa, pb := Components(a), Components(b);
    NewerFromIff(pa, pb, 0);
    NewerFromIff(pb, pa, 0);
  }

  /** Newer is transitive, so it orders versions. */
  lemma {:induction false} NewerTransitive(a: string, b: string, c: string)
    requires Newer(a, b) && Newer(b, c)
    ensures Newer(a, c)
  {
    var pa, pb, pc := Components(a), Components(b), Components(c);
    NewerFromIff(pa, pb, 0);
    NewerFromIff(pb, pc, 0);
    NewerFromIff(pa, pc, 0);
    var k :| FirstExceedsAt(pa, pb, 0, k);
    var m :| FirstExceedsAt(pb, pc, 0, m);
    var n := if k <= m then k else m;
    assert FirstExceedsAt(pa, pc, 0, n);
  }

  /** A trailing `.0` changes nothing: `1.0` and `1.0.0` are the same version. */
  lemma {:induction false} TrailingZeroIgnored(a: string, b: string)
    ensures Newer(a + ".0", b) == Newer(a, b)
    ensures Newer(b, a + ".0") == Newer(b, a)
  {
    SplitAppend(a, "0", '.');
    assert a + ".0" == a + ['.'] + "0";
    var pa, qa, pb := Components(a), Components(a + ".0"), Components(b);
    assert ComponentValue("0") == 0 by {
      DigitComponent("0");
      assert "0"[..0] == [];
    }
    assert qa == pa + [0];
    forall j: nat ensures At(pa, j) == At(qa, j) && At(pb, j) == At(pb, j) {
      if j < |pa| {
        assert qa[j] == pa[j];
      }
    }
    NewerByPadded(qa, pb, pa, pb);
    NewerByPadded(pb, qa, pb, pa);
  }

  /** Two separator-free pieces joined by the separator split back into themselves. */
  lemma SplitTwo(x: string, y: string)
    requires '.' !in x && '.' !in y
    ensures Split(x + "." + y, '.') == [x, y]
  {
    assert Split(x, '.') == [x] by {
      assert FirstIndex(x, '.') == |x|;
    }
    assert x + "." + y == x + ['.'] + y;
    SplitAppend(x, y, '.');
  }

  /** Three separator-free pieces joined by the separator split back into themselves. */
  lemma SplitThree(x: string, y: string, z: string)
    requires '.' !in x && '.' !in y && '.' !in z
    ensures Split(x + "." + y + "." + z, '.') == [x, y, z]
  {
    SplitTwo(x, y);
    assert x + "." + y + "." + z == (x + "." + y) + ['.'] + z;
    SplitAppend(x + "." + y, z, '.');
  }

  /** A version of two separator-free components reads as their two values. */
  lemma ComponentsOfTwo(x: string, y: string)
    requires '.' !in x && '.' !in y
    ensures Components(x + "." + y) == [ComponentValue(x), ComponentValue(y)]
  {
    SplitTwo(x, y);
  }

  /** A version of three separator-free components reads as their three values. */
  lemma ComponentsOfThreeParts(x: string, y: string, z: string)
    requires '.' !in x && '.' !in y && '.' !in z
    ensures Components(x + "." + y + "." + z) == [ComponentValue(x), ComponentValue(y), ComponentValue(z)]
  {
    SplitThree(x, y, z);
  }

  /** A version of three digit components reads as their three decimal values. */
  lemma ComponentsOfThree(x: string, y: string, z: string)
    requires AllDigits(x) && AllDigits(y) && AllDigits(z)
    ensures Components(x + "." + y + "." + z) == [DigitsValue(x), DigitsValue(y), DigitsValue(z)]
  {
    assert '.' !in x && '.' !in y && '.' !in z;
    ComponentsOfThreeParts(x, y, z);
    DigitComponent(x);
    DigitComponent(y);
    DigitComponent(z);
  }

  lemma SmallDigitValues()
    ensures DigitsValue("10") == 10 && DigitsValue("9") == 9
    ensures DigitsValue("1") == 1 && DigitsValue("0") == 0
  {
    assert "10"[..1] == "1";
    assert "9"[..0] == [] && "1"[..0] == [] && "0"[..0] == [];
  }

  lemma ComponentsOfCurrentVersion()
    ensures Components("1.0.10") == [1, 0, 10] && Components("1.0.9") == [1, 0, 9]
  {
    SmallDigitValues();
    ComponentsOfThree("1", "0", "10");
    ComponentsOfThree("1", "0", "9");
    assert "1" + "." + "0" + "." + "10" == "1.0.10";
    assert "1" + "." + "0" + "." + "9" == "1.0.9";
  }

  /** Components compare as numbers, not as text: `1.0.10` is newer than `1.0.9`. */
  lemma ComponentsCompareAsNumbers()
    ensures Newer("1.0.10", "1.0.9") && !Newer("1.0.9", "1.0.10")
  {
    ComponentsOfCurrentVersion();
    var p, q := [1, 0, 10], [1, 0, 9];
    assert NewerFrom(p, q, 2) && !NewerFrom(q, p, 2);
    assert NewerFrom(p, q, 1) && !NewerFrom(q, p, 1);
  }

  /** White space before a version is ignored, so ` 2.0.0` reads as `2.0.0`. */
  lemma LeadingSpaceIgnored(w: string, a: string)
    requires forall i :: 0 <= i < |w| ==> IsSpace(w[i])
    ensures Components(w + a) == Components(a)
  {
    assert '.' !in w;
    SplitPrepend(w, a, '.');
    var head := Split(a, '.')[0];
    ComponentIgnoresPadding(w, head, []);
    assert w + head + [] == w + head;
    var c, d := Components(w + a), Components(a);
    forall i | 0 <= i < |c| ensures c[i] == d[i] {
      if i > 0 {
        assert Split(w + a, '.')[i] == Split(a, '.')[i];
      }
    }
  }

  /** A component with a minus sign is negative: `1.0` is newer than `1.-1`. */
  lemma SignedComponentCounts()
    ensures Newer("1.0", "1.-1")
  {
    ComponentsOfTwo("1", "0");
    assert "1" + "." + "0" == "1.0";
    ComponentsOfTwo("1", "-1");
    assert "1" + "." + "-1" == "1.-1";
    assert ComponentValue("1") == 1 && ComponentValue("0") == 0 by {
      DigitComponent("1");
      DigitComponent("0");
      assert "1"[..0] == [] && "0"[..0] == [];
    }
    assert ComponentValue("-1") == -1 by {
      ComponentReadsIntegers(-1);
      assert IntToString(-1) == "-1";
    }
    var p, q := [1, 0], [1, -1];
    assert NewerFrom(p, q, 1);
  }

  /** A component that is not a number counts as 0: `1.0b` is not newer than `1.0`. */
  lemma NonNumericComponentIsZero()
    ensures !Newer("1.0b", "1.0")
  {
    ComponentsOfTwo("1", "0");
    assert "1" + "." + "0" == "1.0";
    ComponentsOfTwo("1", "0b");
    assert "1" + "." + "0b" == "1.0b";
    assert ComponentValue("0") == 0 by {
      DigitComponent("0");
      assert "0"[..0] == [];
    }
    assert ComponentValue("0b") == 0 by {
      assert !AllDigits("0b") by {
        assert "0b"[1] == 'b';
      }
    }
    NewerIrreflexive("1.0");
  }

  /** The loop of `isNewer` over the components of the two versions: over the longer
      length, missing components read as 0. */
  method CompareComponents(pa: seq<int>, pb: seq<int>) returns (r: bool)
    ensures r == NewerFrom(pa, pb, 0)
    ensures r <==> exists k :: FirstExceedsAt(pa, pb, 0, k)
  {
    NewerFromIff(pa, pb, 0);
    var n := if |pa| >= |pb| then |pa| else |pb|;
    var i := 0;
    while i < n
      invariant 0 <= i <= n
      invariant NewerFrom(pa, pb, i) == NewerFrom(pa, pb, 0)
    {
      var na := if i < |pa| then pa[i] else 0;
      var nb := if i < |pb| then pb[i] else 0;
      if na > nb {
        return true;
      }
      if na < nb {
        return false;
      }
      i := i + 1;
    }
    return false;
  }

  /** `isNewer(a, b)`: `a` is newer exactly when it is larger at the first component
      where the two differ. */
  method IsNewer(a: string, b: string) returns (r: bool)
    ensures r == Newer(a, b)
    ensures r <==> exists k :: FirstExceedsAt(Components(a), Components(b), 0, k)
  {
    r := CompareComponents(Components(a), Components(b));
  }

  /** What the page reports after asking for the latest version: a failed request or a
      response without a version fails the check; otherwise an update is offered exactly
      when the published version is newer than the running one. */
  datatype UpdateStatus = CheckFailed | UpToDate | UpdateAvailable(version: string)

  function StatusAfterCheck(response: Option<Option<string>>): (st: UpdateStatus)
    ensures response.None? || response.value.None? ==> st == CheckFailed
    ensures response.Some? && response.value.Some? ==>
      (st.UpdateAvailable? <==> Newer(response.value.value, CurrentVersion))
      && (st.UpdateAvailable? ==> st.version == response.value.value)
      && (!st.UpdateAvailable? ==> st == UpToDate)
  {
    match response
    case None => CheckFailed
    case Some(None) => CheckFailed
    case Some(Some(v)) => if Newer(v, CurrentVersion) then UpdateAvailable(v) else UpToDate
  }

  /** The running version is never offered as an update of itself. */
  lemma CurrentVersionIsUpToDate()
    ensures StatusAfterCheck(Some(Some(CurrentVersion))) == UpToDate
  {
    NewerIrreflexive(CurrentVersion);
  }
}
