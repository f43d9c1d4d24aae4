/** The non-linear mixer tables (apu.c:765-794) and why a mixed level never leaves 15 bits.
  */
module ApuMixer {
  import opened Common
  import opened ApuTypes

  const FP_SCALE := 0x8000
  const PULSE_NUM := 9552
  const PULSE_DEN := 8128
  const TND_NUM := 16367
  const TND_DEN := 24329

  /** num/100 / (den/i + 100), scaled by 2^15 and rounded down; the limit 0 at i = 0. */
  function MixLevel(num: nat, den: nat, i: nat): int
    requires den > 0
  {
    (FP_SCALE * num * i) / (100 * (den + 100 * i))
  }

  lemma Cancel(q: nat, c: nat, b: nat)
    requires b > 0 && q * b <= c * b
    ensures q <= c
  {
    if q > c {
      ScaleUp(c + 1, q, b);
    }
  }

  lemma ScaleUp(x: nat, y: nat, k: nat)
    requires x <= y
    ensures x * k <= y * k
  {
  }

  /** a/b <= c/d, compared by cross-multiplication. */
  lemma QuotientMonotone(a: nat, b: nat, c: nat, d: nat)
    requires b > 0 && d > 0 && a * d <= c * b
    ensures a / b <= c / d
  {
    var q := a / b;
    assert q * b <= a;
    ScaleUp(q * b, a, d);
    assert (q * d) * b == (q * b) * d;
    Cancel(q * d, c, b);
    var r := c / d;
    assert c < (r + 1) * d;
    if q > r {
      ScaleUp(r + 1, q, d);
    }
  }

  /** A louder index never mixes to a lower level. */
  lemma MixMonotone(num: nat, den: nat, i: nat, j: nat)
    requires den > 0 && i <= j
    ensures MixLevel(num, den, i) <= MixLevel(num, den, j)
  {
    var n := FP_SCALE * num;
    var bi, bj := den + 100 * i, den + 100 * j;
    ScaleUp(i, j, den);
    assert i * bj == i * den + 100 * (i * j);
    assert j * bi == j * den + 100 * (i * j);
    CrossScaled(n, i * bj, j * bi);
    assert (n * i) * (100 * bj) == (n * (i * bj)) * 100;
    assert (n * j) * (100 * bi) == (n * (j * bi)) * 100;
    QuotientMonotone(n * i, 100 * bi, n * j, 100 * bj);
  }

  lemma CrossScaled(n: nat, x: nat, y: nat)
    requires x <= y
    ensures n * x <= n * y
  {
  }

  lemma Silence(num: nat, den: nat)
    requires den > 0
    ensures MixLevel(num, den, 0) == 0
  {
    var b := 100 * (den + 100 * 0);
    assert FP_SCALE * num * 0 == 0;
    assert b == 100 * den;
    ZeroQuotient(b);
  }

  lemma ZeroQuotient(b: nat)
    requires b > 0
    ensures 0 / b == 0
  {
  }

  /** The two tables together reach exactly the top of the 15-bit range and never pass it. */
  lemma MixFits(i: nat, j: nat)
    requires i <= 30 && j <= 202
    ensures 0 <= MixLevel(PULSE_NUM, PULSE_DEN, i) && 0 <= MixLevel(TND_NUM, TND_DEN, j)
    ensures MixLevel(PULSE_NUM, PULSE_DEN, i) + MixLevel(TND_NUM, TND_DEN, j) <= MIX_MAX
  {
    Silence(PULSE_NUM, PULSE_DEN);
    Silence(TND_NUM, TND_DEN);
    MixMonotone(PULSE_NUM, PULSE_DEN, 0, i);
    MixMonotone(TND_NUM, TND_DEN, 0, j);
    MixMonotone(PULSE_NUM, PULSE_DEN, i, 30);
    MixMonotone(TND_NUM, TND_DEN, j, 202);
    assert MixLevel(PULSE_NUM, PULSE_DEN, 30) == 8438;
    assert MixLevel(TND_NUM, TND_DEN, 202) == 24329;
  }

  /** apu.c:780-794, over the two zero-initialised static arrays. */
  method MixerInit(pulseTable: array<int>, tndTable: array<int>)
    requires pulseTable.Length == 31 && tndTable.Length == 203 && pulseTable != tndTable
    requires pulseTable[0] == 0 && tndTable[0] == 0
    modifies pulseTable, tndTable
    ensures pulseTable[..] == PulseTable() && tndTable[..] == TndTable()
  {
    hide MixLevel;
    Silence(PULSE_NUM, PULSE_DEN);
    Silence(TND_NUM, TND_DEN);
    for i := 1 to 31
      invariant forall k :: 0 <= k < i ==> pulseTable[k] == MixLevel(PULSE_NUM, PULSE_DEN, k)
      invariant tndTable[0] == 0
    {
      var level := MixLevel(PULSE_NUM, PULSE_DEN, i);
      MixFits(i, 0);
      pulseTable[i] := level % 0x1_0000;
    }
    for i := 1 to 203
      invariant forall k :: 0 <= k < i ==> tndTable[k] == MixLevel(TND_NUM, TND_DEN, k)
      invariant forall k :: 0 <= k < 31 ==> pulseTable[k] == MixLevel(PULSE_NUM, PULSE_DEN, k)
    {
      var level := MixLevel(TND_NUM, TND_DEN, i);
      MixFits(0, i);
      tndTable[i] := level % 0x1_0000;
    }
  }

  function PulseTable(): (t: seq<int>)
    ensures |t| == 31
  {
    seq(31, i requires 0 <= i < 31 => MixLevel(PULSE_NUM, PULSE_DEN, i))
  }

  function TndTable(): (t: seq<int>)
    ensures |t| == 203
  {
    seq(203, i requires 0 <= i < 203 => MixLevel(TND_NUM, TND_DEN, i))
  }

  /** The tables the source builds are an environment the audio unit may be run with. */
  lemma TablesValid(prg: seq<u8>)
    requires |prg| == DMC_ADDR_SPACE
    ensures ValidEnv(Env(PulseTable(), TndTable(), prg))
    ensures TndTable()[21] > 0
  {
    forall i, j | 0 <= i < 31 && 0 <= j < 203
      ensures PulseTable()[i] + TndTable()[j] <= MIX_MAX
    {
      MixFits(i, j);
    }
    assert MixLevel(TND_NUM, TND_DEN, 21) == 4261;
  }

  /** The two tables as numbers: 95.52 / (8128/i + 100) and 163.67 / (24329/i + 100) in units of 2^-15, from silence to
    * the top of the range.
    */
  lemma TableLevels(i: nat, j: nat)
    requires i < 31 && j < 203
    ensures PulseTable()[i] == (32768 * 9552 * i) / (100 * (8128 + 100 * i))
    ensures TndTable()[j] == (32768 * 16367 * j) / (100 * (24329 + 100 * j))
    ensures PulseTable()[0] == 0 && TndTable()[0] == 0 && PulseTable()[30] + TndTable()[202] == 0x7FFF
  {
    assert MixLevel(PULSE_NUM, PULSE_DEN, 30) == 8438;
    assert MixLevel(TND_NUM, TND_DEN, 202) == 24329;
    Silence(PULSE_NUM, PULSE_DEN);
    Silence(TND_NUM, TND_DEN);
  }
}
