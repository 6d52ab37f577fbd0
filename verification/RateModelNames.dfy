/** The names under which rate model contracts are deployed: the model, its parameters in basis points,
    and the time base. Two names are equal exactly when all of these are. */
module RateModelNames {
  import opened FixedPoint
  import opened Outcomes
  import opened RateModels

  const BPS: nat := 100_000_000_000_000

  function MantissaToBps(mantissa: int): int {
    TruncDiv(mantissa, BPS)
  }

  // ---------- numbers in decimal ----------

  const DIGITS: string := "0123456789"

  function Decimal(n: nat): string {
    if n < 10 then [DIGITS[n]] else Decimal(n / 10) + [DIGITS[n % 10]]
  }

  function Print(n: int): string {
    if n < 0 then "-" + Decimal(-n) else Decimal(n)
  }

  predicate IsDigit(c: char) {
    '0' <= c <= '9'
  }

  lemma DigitsDiffer(i: nat, j: nat)
    requires i < 10 && j < 10
    ensures IsDigit(DIGITS[i])
    ensures DIGITS[i] == DIGITS[j] ==> i == j
  {
  }

  lemma {:induction false} DecimalIsDigits(n: nat)
    ensures |Decimal(n)| >= 1
    ensures |Decimal(n)| == 1 <==> n < 10
    ensures forall i :: 0 <= i < |Decimal(n)| ==> IsDigit(Decimal(n)[i])
  {
    DigitsDiffer(n % 10, 0);
    if n >= 10 {
      DecimalIsDigits(n / 10);
    }
  }

  lemma {:induction false} DecimalInjective(m: nat, n: nat)
    requires Decimal(m) == Decimal(n)
    ensures m == n
  {
    DecimalIsDigits(m);
    DecimalIsDigits(n);
    var s, t := Decimal(m), Decimal(n);
    DigitsDiffer(m % 10, n % 10);
    if m >= 10 {
      assert s[|s| - 1] == DIGITS[m % 10] && t[|t| - 1] == DIGITS[n % 10];
      assert s[..|s| - 1] == Decimal(m / 10) && t[..|t| - 1] == Decimal(n / 10);
      DecimalInjective(m / 10, n / 10);
    } else {
      assert s[0] == DIGITS[m] && t[0] == DIGITS[n];
    }
  }

  predicate IsNumeral(s: string) {
    |s| >= 1 && forall i :: 0 <= i < |s| ==> IsDigit(s[i]) || s[i] == '-'
  }

  lemma PrintIsNumeral(n: int)
    ensures IsNumeral(Print(n))
    ensures Print(n)[0] == '-' <==> n < 0
  {
    DecimalIsDigits(if n < 0 then -n else n);
  }

  lemma PrintInjective(m: int, n: int)
    requires Print(m) == Print(n)
    ensures m == n
  {
    PrintIsNumeral(m);
    PrintIsNumeral(n);
    if m < 0 {
      assert Print(m)[1..] == Decimal(-m) && Print(n)[1..] == Decimal(-n);
      DecimalInjective(-m, -n);
    } else {
      DecimalInjective(m, n);
    }
  }

  // ---------- fields ----------

  const UNIT: string := "bps_"

  /// Each label followed by its number and the unit.
  function Fields(labels: seq<string>, values: seq<int>): string
    requires |labels| == |values|
  {
    if |labels| == 0 then ""
    else labels[0] + (Print(values[0]) + (UNIT + Fields(labels[1..], values[1..])))
  }

  lemma Overlap(a: string, x: string, b: string, y: string)
    requires a + x == b + y && |a| < |b|
    ensures |x| > 0 && b[|a|] == x[0]
  {
    assert (a + x)[|a|] == (b + y)[|a|];
  }

  /// A numeral ends where something that is no part of a numeral follows.
  lemma NumeralEnds(a: string, x: string, b: string, y: string)
    requires IsNumeral(a) && IsNumeral(b) && a + x == b + y
    requires |x| > 0 && !IsDigit(x[0]) && x[0] != '-'
    requires |y| > 0 && !IsDigit(y[0]) && y[0] != '-'
    ensures a == b && x == y
  {
    if |a| < |b| {
      Overlap(a, x, b, y);
      assert false;
    }
    if |b| < |a| {
      Overlap(b, y, a, x);
      assert false;
    }
    SameLengthSplit(a, x, b, y);
  }

  lemma SameLengthSplit(a: string, x: string, b: string, y: string)
    requires a + x == b + y && |a| == |b|
    ensures a == b && x == y
  {
    assert a == (a + x)[..|a|] && b == (b + y)[..|b|];
    assert x == (a + x)[|a|..] && y == (b + y)[|b|..];
  }

  lemma FieldsUnfold(labels: seq<string>, values: seq<int>, rest: string)
    requires |labels| == |values| > 0
    ensures Fields(labels, values) + rest
         == labels[0] + (Print(values[0]) + (UNIT + (Fields(labels[1..], values[1..]) + rest)))
  {
    var f := Fields(labels[1..], values[1..]);
    assert UNIT + f + rest == UNIT + (f + rest);
    assert Print(values[0]) + (UNIT + f) + rest == Print(values[0]) + (UNIT + (f + rest));
    assert labels[0] + (Print(values[0]) + (UNIT + f)) + rest == labels[0] + (Print(values[0]) + (UNIT + (f + rest)));
  }

  /// The fields decode uniquely, whatever follows them.
  lemma {:induction false} FieldsDecode(labels: seq<string>, v: seq<int>, w: seq<int>, x: string, y: string)
    requires |labels| == |v| == |w| && Fields(labels, v) + x == Fields(labels, w) + y
    ensures v == w && x == y
    decreases |labels|
  {
    if |labels| == 0 {
      assert x == "" + x && y == "" + y;
    } else {
      var f, g := Fields(labels[1..], v[1..]) + x, Fields(labels[1..], w[1..]) + y;
      FieldsUnfold(labels, v, x);
      FieldsUnfold(labels, w, y);
      SameLengthSplit(labels[0], Print(v[0]) + (UNIT + f), labels[0], Print(w[0]) + (UNIT + g));
      PrintIsNumeral(v[0]);
      PrintIsNumeral(w[0]);
      assert (UNIT + f)[0] == 'b' == (UNIT + g)[0];
      NumeralEnds(Print(v[0]), UNIT + f, Print(w[0]), UNIT + g);
      PrintInjective(v[0], w[0]);
      SameLengthSplit(UNIT, f, UNIT, g);
      FieldsDecode(labels[1..], v[1..], w[1..], x, y);
      assert v == [v[0]] + v[1..] && w == [w[0]] + w[1..];
    }
  }

  // ---------- models ----------

  datatype RateModelParams =
    | WhitePaper(base: int, slope: int)
    | JumpRate(base: int, slope: int, jump: int, kink: int)
    | TwoKinks(base: int, slope: int, kink: int, slope2: int, base2: int, kink2: int, jump: int)

  datatype TimeBase = TimeBased | BlockBased(blocksPerYear: nat)

  function Suffix(t: TimeBase): string {
    match t
    case TimeBased => "timeBased"
    case BlockBased(blocksPerYear) => "bpy" + Decimal(blocksPerYear)
  }

  function Prefix(p: RateModelParams): string {
    match p
    case WhitePaper(_, _) => "WhitePaperInterestRateModel_"
    case JumpRate(_, _, _, _) => "JumpRateModelV2_"
    case TwoKinks(_, _, _, _, _, _, _) => "TwoKinks_"
  }

  function Labels(p: RateModelParams): seq<string> {
    match p
    case WhitePaper(_, _) => ["base", "slope"]
    case JumpRate(_, _, _, _) => ["base", "slope", "jump", "kink"]
    case TwoKinks(_, _, _, _, _, _, _) => ["base", "slope", "kink", "slope2", "base2", "kink2", "jump"]
  }

  function Values(p: RateModelParams): (v: seq<int>)
    ensures |v| == |Labels(p)|
  {
    match p
    case WhitePaper(base, slope) => [base, slope]
    case JumpRate(base, slope, jump, kink) => [base, slope, jump, kink]
    case TwoKinks(base, slope, kink, slope2, base2, kink2, jump) => [base, slope, kink, slope2, base2, kink2, jump]
  }

  function InBps(values: seq<int>): seq<int> {
    seq(|values|, i requires 0 <= i < |values| => MantissaToBps(values[i]))
  }

  function RateModelName(p: RateModelParams, t: TimeBase): string {
    Prefix(p) + (Fields(Labels(p), InBps(Values(p))) + Suffix(t))
  }

  /// One parameter of a name, in basis points, and what follows.
  function Field(name: string, mantissa: int, rest: string): string {
    name + (Print(MantissaToBps(mantissa)) + ("bps_" + rest))
  }

  lemma FirstField(names: seq<string>, mantissas: seq<int>, suffix: string)
    requires |names| == |mantissas| > 0
    ensures Fields(names, InBps(mantissas)) + suffix
         == Field(names[0], mantissas[0], Fields(names[1..], InBps(mantissas[1..])) + suffix)
  {
    assert InBps(mantissas)[1..] == InBps(mantissas[1..]);
  }

  lemma LastField(name: string, mantissa: int, suffix: string)
    ensures Fields([name], InBps([mantissa])) + suffix == Field(name, mantissa, suffix)
  {
    FirstField([name], [mantissa], suffix);
    assert Fields([], InBps([])) + suffix == suffix;
  }

  lemma TwoFields(n1: string, n2: string, x1: int, x2: int, suffix: string)
    ensures Fields([n1, n2], InBps([x1, x2])) + suffix == Field(n1, x1, Field(n2, x2, suffix))
  {
    FirstField([n1, n2], [x1, x2], suffix);
    LastField(n2, x2, suffix);
  }

  lemma FourFields(n1: string, n2: string, n3: string, n4: string, x1: int, x2: int, x3: int, x4: int, suffix: string)
    ensures Fields([n1, n2, n3, n4], InBps([x1, x2, x3, x4])) + suffix
         == Field(n1, x1, Field(n2, x2, Field(n3, x3, Field(n4, x4, suffix))))
  {
    FirstField([n1, n2, n3, n4], [x1, x2, x3, x4], suffix);
    assert [n1, n2, n3, n4][1..] == [n2, n3, n4] && [x1, x2, x3, x4][1..] == [x2, x3, x4];
    FirstField([n2, n3, n4], [x2, x3, x4], suffix);
    assert [n2, n3, n4][1..] == [n3, n4] && [x2, x3, x4][1..] == [x3, x4];
    TwoFields(n3, n4, x3, x4, suffix);
  }

  /// How names read: the model, its parameters in basis points, and the time base.
  lemma NamesRead(b: int, s: int, j: int, k: int, t: TimeBase)
    ensures RateModelName(WhitePaper(b, s), t)
         == "WhitePaperInterestRateModel_" + Field("base", b, Field("slope", s, Suffix(t)))
    ensures RateModelName(JumpRate(b, s, j, k), t)
         == "JumpRateModelV2_" + Field("base", b, Field("slope", s, Field("jump", j, Field("kink", k, Suffix(t)))))
  {
    TwoFields("base", "slope", b, s, Suffix(t));
    FourFields("base", "slope", "jump", "kink", b, s, j, k, Suffix(t));
  }

  lemma TwoKinksNamesRead(b: int, s: int, k: int, s2: int, b2: int, k2: int, j: int, t: TimeBase)
    ensures RateModelName(RateModelParams.TwoKinks(b, s, k, s2, b2, k2, j), t)
         == "TwoKinks_" + Field("base", b, Field("slope", s, Field("kink", k, Field("slope2", s2, Field("base2", b2,
                          Field("kink2", k2, Field("jump", j, Suffix(t))))))))
  {
    var names, values := ["base", "slope", "kink", "slope2", "base2", "kink2", "jump"], [b, s, k, s2, b2, k2, j];
    ThreeFields(names, values, Suffix(t));
    assert names[3..] == ["slope2", "base2", "kink2", "jump"] && values[3..] == [s2, b2, k2, j];
    FourFields("slope2", "base2", "kink2", "jump", s2, b2, k2, j, Suffix(t));
  }

  lemma ThreeFields(names: seq<string>, mantissas: seq<int>, suffix: string)
    requires |names| == |mantissas| >= 3
    ensures Fields(names, InBps(mantissas)) + suffix
         == Field(names[0], mantissas[0], Field(names[1], mantissas[1], Field(names[2], mantissas[2],
              Fields(names[3..], InBps(mantissas[3..])) + suffix)))
  {
    FirstField(names, mantissas, suffix);
    FirstField(names[1..], mantissas[1..], suffix);
    FirstField(names[2..], mantissas[2..], suffix);
    assert names[1..][1..] == names[2..] && mantissas[1..][1..] == mantissas[2..];
    assert names[2..][1..] == names[3..] && mantissas[2..][1..] == mantissas[3..];
  }

  predicate SameModel(p: RateModelParams, q: RateModelParams) {
    (p.WhitePaper? && q.WhitePaper?) || (p.JumpRate? && q.JumpRate?) || (p.TwoKinks? && q.TwoKinks?)
  }

  lemma SuffixInjective(t: TimeBase, u: TimeBase)
    requires Suffix(t) == Suffix(u)
    ensures t == u
  {
    if t.BlockBased? && u.BlockBased? {
      SameLengthSplit("bpy", Decimal(t.blocksPerYear), "bpy", Decimal(u.blocksPerYear));
      DecimalInjective(t.blocksPerYear, u.blocksPerYear);
    } else {
      assert Suffix(t)[0] == if t.TimeBased? then 't' else 'b';
      assert Suffix(u)[0] == if u.TimeBased? then 't' else 'b';
    }
  }

  lemma ModelFromName(p: RateModelParams, t: TimeBase)
    ensures |RateModelName(p, t)| > 0
    ensures RateModelName(p, t)[0] == match p
      case WhitePaper(_, _) => 'W'
      case JumpRate(_, _, _, _) => 'J'
      case TwoKinks(_, _, _, _, _, _, _) => 'T'
  {
    assert Prefix(p)[0] == RateModelName(p, t)[0];
  }

  /// Two names are equal exactly when the models, the time bases and all the basis points are.
  lemma NamesDecode(p: RateModelParams, t: TimeBase, q: RateModelParams, u: TimeBase)
    ensures RateModelName(p, t) == RateModelName(q, u)
       <==> SameModel(p, q) && InBps(Values(p)) == InBps(Values(q)) && t == u
  {
    if RateModelName(p, t) == RateModelName(q, u) {
      ModelFromName(p, t);
      ModelFromName(q, u);
      assert SameModel(p, q);
      SameLengthSplit(Prefix(p), Fields(Labels(p), InBps(Values(p))) + Suffix(t),
                      Prefix(q), Fields(Labels(q), InBps(Values(q))) + Suffix(u));
      FieldsDecode(Labels(p), InBps(Values(p)), InBps(Values(q)), Suffix(t), Suffix(u));
      SuffixInjective(t, u);
    }
  }

  // ---------- whole basis points ----------

  /// Every parameter is a whole number of basis points.
  predicate WholeBps(p: RateModelParams) {
    forall i :: 0 <= i < |Values(p)| ==> Values(p)[i] % BPS == 0
  }

  lemma ExactQuotient(k: int, d: int)
    requires 0 < d
    ensures k * d / d == k
  {
    DivBounds(k * d, d, k);
    DivBounds(k * d, d, k + 1);
    assert (k + 1) * d == k * d + d;
  }

  lemma WholeIsExact(x: int)
    requires x % BPS == 0
    ensures MantissaToBps(x) * BPS == x
  {
    var k := x / BPS;
    assert x == k * BPS;
    ExactQuotient(-k, BPS);
    assert -x == -k * BPS;
  }

  lemma ValuesDetermine(p: RateModelParams, q: RateModelParams)
    requires SameModel(p, q) && Values(p) == Values(q)
    ensures p == q
  {
    var v, w := Values(p), Values(q);
    assert forall i :: 0 <= i < |v| ==> v[i] == w[i];
    if p.WhitePaper? {
      assert v[0] == w[0] && v[1] == w[1];
    } else if p.JumpRate? {
      assert v[0] == w[0] && v[1] == w[1] && v[2] == w[2] && v[3] == w[3];
    } else {
      assert v[0] == w[0] && v[1] == w[1] && v[2] == w[2] && v[3] == w[3] && v[4] == w[4] && v[5] == w[5] && v[6] == w[6];
    }
  }

  /// Among models in whole basis points a name stands for one model on one time base.
  lemma WholeNamesAreUnique(p: RateModelParams, t: TimeBase, q: RateModelParams, u: TimeBase)
    requires WholeBps(p) && WholeBps(q) && RateModelName(p, t) == RateModelName(q, u)
    ensures p == q && t == u
  {
    NamesDecode(p, t, q, u);
    var v, w := Values(p), Values(q);
    forall i | 0 <= i < |v|
      ensures v[i] == w[i]
    {
      assert InBps(v)[i] == InBps(w)[i];
      WholeIsExact(v[i]);
      WholeIsExact(w[i]);
    }
    ValuesDetermine(p, q);
  }

  /// Without whole basis points names can coincide: half a basis point more does not show.
  lemma HalfBpsCollides()
    ensures var p, q := WhitePaper(0, 5 * BPS), WhitePaper(0, 5 * BPS + BPS / 2);
      p != q && RateModelName(p, TimeBased) == RateModelName(q, TimeBased)
  {
    var p, q := WhitePaper(0, 5 * BPS), WhitePaper(0, 5 * BPS + BPS / 2);
    assert MantissaToBps(5 * BPS) == 5 == MantissaToBps(5 * BPS + BPS / 2);
    assert InBps(Values(p)) == InBps(Values(q));
    NamesDecode(p, TimeBased, q, TimeBased);
  }
}
