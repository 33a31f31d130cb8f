/** The test configurations of bench/spi/run.py: one configuration of the SPI
    master test bench per (clock polarity, clock phase) pair, named after the
    SPI mode and passing both values as VHDL character literals. */
module SpiRun {
  import opened Strings
  import opened VUnitApi

  const PolarityGeneric: string := "G_CLK_POLARITY"
  const PhaseGeneric: string := "G_CLK_PHASE"
  const TestBenchName: string := "tb_spi_master"

  /** The SPI mode number of a (CPOL, CPHA) pair. */
  function SpiMode(cpol: int, cpha: int): int
  {
    cpol * 2 + cpha
  }

  /** For bit values the mode is a two-bit number whose high bit is CPOL and
      whose low bit is CPHA, so the four pairs give the four modes 0..3 and
      each mode comes from exactly one pair. */
  lemma ModeOfBits(cpol: int, cpha: int)
    requires 0 <= cpol <= 1 && 0 <= cpha <= 1
    ensures 0 <= SpiMode(cpol, cpha) <= 3
    ensures SpiMode(cpol, cpha) / 2 == cpol && SpiMode(cpol, cpha) % 2 == cpha
  {
  }

  lemma ModeCoversAll(mode: int)
    requires 0 <= mode <= 3
    ensures SpiMode(mode / 2, mode % 2) == mode
  {
  }

  /** `f"SPI_Mode_{spi_mode}_CPOL={cpol}_CPHA={cpha}"`. */
  function ConfigName(cpol: int, cpha: int): string
  {
    "SPI_Mode_" + IntToString(SpiMode(cpol, cpha)) + "_CPOL=" + IntToString(cpol) +
    "_CPHA=" + IntToString(cpha)
  }

  /** `f"'{v}'"`: the value as a VHDL character literal. */
  function CharLiteral(v: int): string
  {
    "'" + IntToString(v) + "'"
  }

  function Generics(cpol: int, cpha: int): map<string, string>
  {
    map[PolarityGeneric := CharLiteral(cpol), PhaseGeneric := CharLiteral(cpha)]
  }

  /** The configuration one pair yields. */
  function SpiConfig(pair: (int, int)): Config
  {
    Config(ConfigName(pair.0, pair.1), Generics(pair.0, pair.1))
  }

  /** `itertools.product(xs, ys)`: every x with every y, x varying slowest. */
  function Product(xs: seq<int>, ys: seq<int>): seq<(int, int)>
  {
    if |xs| == 0 then []
    else seq(|ys|, j requires 0 <= j < |ys| => (xs[0], ys[j])) + Product(xs[1..], ys)
  }

  /** The product has |xs|·|ys| pairs. */
  lemma {:induction false} ProductSize(xs: seq<int>, ys: seq<int>)
    ensures |Product(xs, ys)| == |xs| * |ys|
  {
    if |xs| > 0 {
      ProductSize(xs[1..], ys);
      assert |ys| + (|xs| - 1) * |ys| == |xs| * |ys|;
    }
  }

  lemma MulStep(i: int, w: int)
    ensures (i + 1) * w == i * w + w
  {
  }

  lemma MulBelow(i: int, n: int, w: nat)
    requires 0 <= i < n
    ensures i * w + w <= n * w
  {
    MulStep(i, w);
    assert (i + 1) * w <= n * w;
  }

  /** Pair i·|ys| + j of the product is (xs[i], ys[j]). */
  lemma {:induction false} ProductAt(xs: seq<int>, ys: seq<int>, i: int, j: int)
    requires 0 <= i < |xs| && 0 <= j < |ys|
    ensures i * |ys| + j < |Product(xs, ys)|
    ensures Product(xs, ys)[i * |ys| + j] == (xs[i], ys[j])
  {
    var w := |ys|;
    ProductSize(xs, ys);
    MulBelow(i, |xs|, w);
    var row := seq(w, m requires 0 <= m < w => (xs[0], ys[m]));
    var rest := Product(xs[1..], ys);
    assert Product(xs, ys) == row + rest;
    if i == 0 {
      assert i * w + j == j;
    } else {
      ProductAt(xs[1..], ys, i - 1, j);
      MulStep(i - 1, w);
      var m := (i - 1) * w + j;
      assert i * w + j == w + m;
      assert (row + rest)[w + m] == rest[m];
    }
  }

  /** The configurations `generate_spi_tests` adds, in `product` order. */
  function SpiConfigs(cpolValues: seq<int>, cphaValues: seq<int>): seq<Config>
  {
    var pairs := Product(cpolValues, cphaValues);
    seq(|pairs|, k requires 0 <= k < |pairs| => SpiConfig(pairs[k]))
  }

  /** `generate_spi_tests(obj, cpol_values, cpha_values)`: appends one
      configuration per pair of the product to the test bench. */
  method GenerateSpiTests(tb: TestBench, cpolValues: seq<int>, cphaValues: seq<int>)
    modifies tb`configs
    ensures tb.configs == old(tb.configs) + SpiConfigs(cpolValues, cphaValues)
  {
    var pairs := Product(cpolValues, cphaValues);
    ghost var expected := SpiConfigs(cpolValues, cphaValues);
    var k := 0;
    while k < |pairs|
      invariant 0 <= k <= |pairs|
      invariant tb.configs == old(tb.configs) + expected[..k]
    {
      var (cpol, cpha) := pairs[k];
      tb.AddConfig(ConfigName(cpol, cpha), Generics(cpol, cpha));
      assert expected[..k + 1] == expected[..k] + [expected[k]];
      k := k + 1;
    }
    assert expected[..k] == expected;
  }

  /** Configuration i·|cphas| + j is the one of (cpols[i], cphas[j]), and
      there are |cpols|·|cphas| of them. */
  lemma SpiConfigsAt(cpolValues: seq<int>, cphaValues: seq<int>, i: int, j: int)
    requires 0 <= i < |cpolValues| && 0 <= j < |cphaValues|
    ensures |SpiConfigs(cpolValues, cphaValues)| == |cpolValues| * |cphaValues|
    ensures i * |cphaValues| + j < |SpiConfigs(cpolValues, cphaValues)|
    ensures SpiConfigs(cpolValues, cphaValues)[i * |cphaValues| + j] ==
      SpiConfig((cpolValues[i], cphaValues[j]))
  {
    ProductSize(cpolValues, cphaValues);
    ProductAt(cpolValues, cphaValues, i, j);
    var k := i * |cphaValues| + j;
    ConfigOfPair(cpolValues, cphaValues, k);
  }

  /** Configuration k is the one of pair k of the product. */
  lemma ConfigOfPair(cpolValues: seq<int>, cphaValues: seq<int>, k: int)
    requires 0 <= k < |Product(cpolValues, cphaValues)|
    ensures |SpiConfigs(cpolValues, cphaValues)| == |Product(cpolValues, cphaValues)|
    ensures SpiConfigs(cpolValues, cphaValues)[k] == SpiConfig(Product(cpolValues, cphaValues)[k])
  {
  }

  lemma DigitString(b: int)
    requires 0 <= b <= 9
    ensures IntToString(b) == [DigitChar(b)]
  {
  }

  /** For bit values the generics are three-character literals '0' or '1'. */
  lemma GenericsAreCharLiterals(cpol: int, cpha: int)
    requires 0 <= cpol <= 1 && 0 <= cpha <= 1
    ensures Generics(cpol, cpha).Keys == {PolarityGeneric, PhaseGeneric}
    ensures var g := Generics(cpol, cpha)[PolarityGeneric];
      |g| == 3 && g[0] == '\'' && g[2] == '\'' && g[1] == (if cpol == 0 then '0' else '1')
    ensures var g := Generics(cpol, cpha)[PhaseGeneric];
      |g| == 3 && g[0] == '\'' && g[2] == '\'' && g[1] == (if cpha == 0 then '0' else '1')
  {
    DigitString(cpol);
    DigitString(cpha);
  }

  /** For bit values the name is "SPI_Mode_" followed by the mode digit, so
      the ninth character (0-based) is the mode and the mode gives back the pair. */
  lemma NameShowsMode(cpol: int, cpha: int)
    requires 0 <= cpol <= 1 && 0 <= cpha <= 1
    ensures |ConfigName(cpol, cpha)| == 24
    ensures ConfigName(cpol, cpha)[9] == DigitChar(SpiMode(cpol, cpha))
  {
    DigitString(cpol);
    DigitString(cpha);
    DigitString(SpiMode(cpol, cpha));
  }

  /** Distinct bit pairs get distinct configuration names. */
  lemma {:induction false} NamesDistinct(a: int, b: int, c: int, d: int)
    requires 0 <= a <= 1 && 0 <= b <= 1 && 0 <= c <= 1 && 0 <= d <= 1
    requires ConfigName(a, b) == ConfigName(c, d)
    ensures a == c && b == d
  {
    NameShowsMode(a, b);
    NameShowsMode(c, d);
    ModeOfBits(a, b);
    ModeOfBits(c, d);
    assert DigitChar(SpiMode(a, b)) == DigitChar(SpiMode(c, d));
  }

  /** The sweep of the SPI test bench, CPOL and CPHA both over [0, 1], gives
      exactly four configurations, modes 0 to 3 in this order. */
  lemma StandardSweep()
    ensures SpiConfigs([0, 1], [0, 1]) == [
      Config("SPI_Mode_0_CPOL=0_CPHA=0", map["G_CLK_POLARITY" := "'0'", "G_CLK_PHASE" := "'0'"]),
      Config("SPI_Mode_1_CPOL=0_CPHA=1", map["G_CLK_POLARITY" := "'0'", "G_CLK_PHASE" := "'1'"]),
      Config("SPI_Mode_2_CPOL=1_CPHA=0", map["G_CLK_POLARITY" := "'1'", "G_CLK_PHASE" := "'0'"]),
      Config("SPI_Mode_3_CPOL=1_CPHA=1", map["G_CLK_POLARITY" := "'1'", "G_CLK_PHASE" := "'1'"])]
  {
    SweepPairs();
    Mode0Spelled();
    Mode1Spelled();
    Mode2Spelled();
    Mode3Spelled();
  }

  /** The sweep over [0, 1] × [0, 1] visits the pairs in `product` order. */
  lemma SweepPairs()
    ensures SpiConfigs([0, 1], [0, 1]) ==
      [SpiConfig((0, 0)), SpiConfig((0, 1)), SpiConfig((1, 0)), SpiConfig((1, 1))]
  {
    var bits := [0, 1];
    ProductSize(bits, bits);
    SpiConfigsAt(bits, bits, 0, 0);
    SpiConfigsAt(bits, bits, 0, 1);
    SpiConfigsAt(bits, bits, 1, 0);
    SpiConfigsAt(bits, bits, 1, 1);
  }

  /** Mode 0 (clock idle low, data captured on the rising (first) edge), written out. */
  lemma Mode0Spelled()
    ensures SpiConfig((0, 0)) == Config("SPI_Mode_0_CPOL=0_CPHA=0", map["G_CLK_POLARITY" := "'0'", "G_CLK_PHASE" := "'0'"])
  {
    BitConfig(0, 0);
    assert DigitChar(0 * 2 + 0) == '0' && DigitChar(0) == '0';
  }

  /** Mode 1 (clock idle low, data captured on the falling (second) edge), written out. */
  lemma Mode1Spelled()
    ensures SpiConfig((0, 1)) == Config("SPI_Mode_1_CPOL=0_CPHA=1", map["G_CLK_POLARITY" := "'0'", "G_CLK_PHASE" := "'1'"])
  {
    BitConfig(0, 1);
    assert DigitChar(0 * 2 + 1) == '1' && DigitChar(0) == '0' && DigitChar(1) == '1';
  }

  /** Mode 2 (clock idle high, data captured on the falling (first) edge), written out. */
  lemma Mode2Spelled()
    ensures SpiConfig((1, 0)) == Config("SPI_Mode_2_CPOL=1_CPHA=0", map["G_CLK_POLARITY" := "'1'", "G_CLK_PHASE" := "'0'"])
  {
    BitConfig(1, 0);
    assert DigitChar(1 * 2 + 0) == '2' && DigitChar(1) == '1' && DigitChar(0) == '0';
  }

  /** Mode 3 (clock idle high, data captured on the rising (second) edge), written out. */
  lemma Mode3Spelled()
    ensures SpiConfig((1, 1)) == Config("SPI_Mode_3_CPOL=1_CPHA=1", map["G_CLK_POLARITY" := "'1'", "G_CLK_PHASE" := "'1'"])
  {
    BitConfig(1, 1);
    assert DigitChar(1 * 2 + 1) == '3' && DigitChar(1) == '1';
  }

  /** The configuration of a bit pair, spelled out character by character. */
  lemma BitConfig(cpol: int, cpha: int)
    requires 0 <= cpol <= 1 && 0 <= cpha <= 1
    ensures SpiConfig((cpol, cpha)) ==
      Config("SPI_Mode_" + [DigitChar(cpol * 2 + cpha)] + "_CPOL=" + [DigitChar(cpol)] +
             "_CPHA=" + [DigitChar(cpha)],
             map["G_CLK_POLARITY" := ['\'', DigitChar(cpol), '\''],
                 "G_CLK_PHASE" := ['\'', DigitChar(cpha), '\'']])
  {
    DigitString(cpol);
    DigitString(cpha);
    DigitString(SpiMode(cpol, cpha));
    assert CharLiteral(cpol) == ['\'', DigitChar(cpol), '\''];
    assert CharLiteral(cpha) == ['\'', DigitChar(cpha), '\''];
  }

  /** The tb_spi_master test bench with the standard [0, 1] × [0, 1] sweep. */
  method SpiTestBench() returns (tb: TestBench)
    ensures tb.name == TestBenchName
    ensures |tb.configs| == 4
    ensures forall k :: 0 <= k < 4 ==>
      tb.configs[k] == SpiConfig((k / 2, k % 2)) && SpiMode(k / 2, k % 2) == k
  {
    tb := new TestBench(TestBenchName);
    GenerateSpiTests(tb, [0, 1], [0, 1]);
    ghost var bits := [0, 1];
    forall k | 0 <= k < 4
      ensures tb.configs[k] == SpiConfig((k / 2, k % 2))
    {
      SpiConfigsAt(bits, bits, k / 2, k % 2);
    }
  }
}
