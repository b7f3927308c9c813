/** The helpers of src/lib/utils.js: the worker-code format and the QR
    generation metrics. */
module Utils {
  import opened Common

  /** The digit character of a value below ten. */
  function DigitChar(d: nat): char
    requires d < 10
  {
    "0123456789"[d]
  }

  predicate IsDigit(c: char) {
    '0' <= c <= '9'
  }

  /** The value of a digit character. */
  function DigitOf(c: char): nat
    requires IsDigit(c)
  {
    c as int - '0' as int
  }

  predicate AllDigits(s: string) {
    forall i :: 0 <= i < |s| ==> IsDigit(s[i])
  }

  /** `n.toString()` for a natural number: its decimal digits, most significant first. */
  function Digits(n: nat): (r: string)
    ensures |r| >= 1 && AllDigits(r)
    ensures n < 10 <==> |r| == 1
  {
    if n < 10 then [DigitChar(n)] else Digits(n / 10) + [DigitChar(n % 10)]
  }

  /** The value a string of decimal digits denotes. */
  function ValueOf(s: string): nat
    requires AllDigits(s)
  {
    if s == [] then 0 else 10 * ValueOf(s[..|s| - 1]) + DigitOf(s[|s| - 1])
  }

  /** Reading back the digits of `n` gives `n`. */
  lemma {:induction false} DigitsValue(n: nat)
    ensures ValueOf(Digits(n)) == n
  {
    var r := Digits(n);
    if n < 10 {
      assert r[..0] == [];
    } else {
      DigitsValue(n / 10);
      assert r[..|r| - 1] == Digits(n / 10);
    }
  }

  /** `n.toString()` for an integer: a minus sign before the digits of a negative value. */
  function IntToString(n: int): (r: string)
    ensures n >= 0 ==> AllDigits(r) && ValueOf(r) == n
    ensures n < 0 ==> |r| >= 2 && r[0] == '-' && AllDigits(r[1..]) && ValueOf(r[1..]) == -n
  {
    if n < 0 then
      var d := Digits(-n);
      DigitsValue(-n);
      assert ("-" + d)[1..] == d;
      "-" + d
    else
      DigitsValue(n);
      Digits(n)
  }

  /** `s.padStart(4, '0')`: zeros in front of a string shorter than four. */
  function PadStart4(s: string): (r: string)
    ensures |s| >= 4 ==> r == s
    ensures |s| < 4 ==> |r| == 4 && r[4 - |s|..] == s && forall i :: 0 <= i < 4 - |s| ==> r[i] == '0'
  {
    if |s| >= 4 then s else seq(4 - |s|, _ => '0') + s
  }

  /** Leading zeros do not change the value of a digit string. */
  lemma {:induction false} LeadingZeros(z: nat, s: string)
    requires AllDigits(s)
    ensures AllDigits(seq(z, _ => '0') + s)
    ensures ValueOf(seq(z, _ => '0') + s) == ValueOf(s)
    decreases |s|
  {
    var t := seq(z, _ => '0') + s;
    if s == [] {
      assert t == seq(z, _ => '0');
      ZerosAreZero(z);
    } else {
      assert t[..|t| - 1] == seq(z, _ => '0') + s[..|s| - 1];
      LeadingZeros(z, s[..|s| - 1]);
    }
  }

  /** A run of zeros denotes zero. */
  lemma {:induction false} ZerosAreZero(z: nat)
    ensures AllDigits(seq(z, _ => '0'))
    ensures ValueOf(seq(z, _ => '0')) == 0
  {
    if z > 0 {
      assert seq(z, _ => '0')[..z - 1] == seq(z - 1, _ => '0');
      ZerosAreZero(z - 1);
    }
  }

  /** The random part of a worker code: `Math.floor(random * 10000)` for
      `random` in [0, 1), hence a number in 0..9999. */
  function RandomNumber(random: real): (n: nat)
    requires 0.0 <= random < 1.0
    ensures n < 10000
    ensures n as real <= random * 10000.0 < n as real + 1.0
  {
    (random * 10000.0).Floor
  }

  /** `generateWorkerCode()` with the clock's year and `Math.random()` as inputs:
      "WRK-", the year, "-", and the random number padded to four digits. */
  function GenerateWorkerCode(year: int, random: real): (code: string)
    requires 0.0 <= random < 1.0
    ensures |code| == |IntToString(year)| + 9
    ensures code[..4] == "WRK-"
    ensures code[4..|code| - 5] == IntToString(year)
    ensures code[|code| - 5] == '-'
    ensures AllDigits(code[|code| - 4..]) && ValueOf(code[|code| - 4..]) == RandomNumber(random)
  {
    var n := RandomNumber(random);
    var digits := PadStart4(Digits(n));
    PaddedDigits(n);
    var code := "WRK-" + IntToString(year) + "-" + digits;
    assert code[|code| - 4..] == digits;
    assert code[4..|code| - 5] == IntToString(year);
    code
  }

  /** A number below 10000 has at most four digits. */
  lemma {:induction false} DigitWidth(n: nat)
    requires n < 10000
    ensures |Digits(n)| <= 4
  {
    if n >= 10 {
      DigitWidth(n / 10);
      if n >= 1000 {
        assert n / 10 >= 100;
      }
    }
  }

  /** A number below 10000, padded to four digits, is four digits that read back as the number. */
  lemma PaddedDigits(n: nat)
    requires n < 10000
    ensures |PadStart4(Digits(n))| == 4
    ensures AllDigits(PadStart4(Digits(n))) && ValueOf(PadStart4(Digits(n))) == n
  {
    DigitWidth(n);
    LeadingZeros(4 - |Digits(n)|, Digits(n));
    DigitsValue(n);
    assert PadStart4(Digits(n)) == seq(4 - |Digits(n)|, _ => '0') + Digits(n);
  }

  /** Two draws that give different random numbers give different codes. */
  lemma WorkerCodesDiffer(year: int, r1: real, r2: real)
    requires 0.0 <= r1 < 1.0 && 0.0 <= r2 < 1.0
    requires RandomNumber(r1) != RandomNumber(r2)
    ensures GenerateWorkerCode(year, r1) != GenerateWorkerCode(year, r2)
  {
    var c1, c2 := GenerateWorkerCode(year, r1), GenerateWorkerCode(year, r2);
    assert ValueOf(c1[|c1| - 4..]) != ValueOf(c2[|c2| - 4..]);
  }

  /** One entry handed to `calculateQRMetrics`: whether its `error` field is
      truthy, and its `generationTime` (absent or 0 counts as 0). */
  datatype Generated = Generated(failed: bool, generationTime: Option<real>)

  /** The metrics object: a count and three rationals. */
  datatype QRMetrics = QRMetrics(totalGenerated: nat, successRate: real, averageGenerationTime: real, errorRate: real)

  /** `qr.generationTime || 0`. */
  function TimeOrZero(g: Generated): (t: real)
    // a missing time and a zero time both count as 0
    ensures t == 0.0 <==> g.generationTime.None? || g.generationTime.value == 0.0
    ensures g.generationTime.Some? && g.generationTime.value != 0.0 ==> t == g.generationTime.value
  {
    if g.generationTime.Some? then g.generationTime.value else 0.0
  }

  /** `qrCodes.filter(qr => !qr.error).length`. */
  function CountSucceeded(s: seq<Generated>): (n: nat)
    ensures n <= |s|
  {
    if s == [] then 0 else CountSucceeded(s[..|s| - 1]) + (if s[|s| - 1].failed then 0 else 1)
  }

  /** `qrCodes.filter(qr => qr.error).length`. */
  function CountFailed(s: seq<Generated>): (n: nat)
    ensures n <= |s|
  {
    if s == [] then 0 else CountFailed(s[..|s| - 1]) + (if s[|s| - 1].failed then 1 else 0)
  }

  /** `qrCodes.reduce((acc, qr) => acc + (qr.generationTime || 0), 0)`. */
  function SumTimes(s: seq<Generated>): real {
    if s == [] then 0.0 else SumTimes(s[..|s| - 1]) + TimeOrZero(s[|s| - 1])
  }

  /** Missing times add nothing, so with no negative time the sum is not
      negative, and it is at least each entry's time. */
  lemma {:induction false} SumTimesBound(s: seq<Generated>)
    requires forall i | 0 <= i < |s| :: TimeOrZero(s[i]) >= 0.0
    ensures SumTimes(s) >= 0.0
    ensures forall i | 0 <= i < |s| :: SumTimes(s) >= TimeOrZero(s[i])
  {
    if s != [] {
      SumTimesBound(s[..|s| - 1]);
    }
  }

  /** The entries with and without an error partition the input. */
  lemma {:induction false} CountsPartition(s: seq<Generated>)
    ensures CountSucceeded(s) + CountFailed(s) == |s|
  {
    if s != [] {
      CountsPartition(s[..|s| - 1]);
    }
  }

  /** `calculateQRMetrics(qrCodes)`: all zero for a null or empty input;
      otherwise the length, the two rates in percent and the mean generation
      time. */
  function CalculateQRMetrics(qrCodes: Option<seq<Generated>>): (m: QRMetrics)
    ensures qrCodes.None? || qrCodes.value == [] ==> m == QRMetrics(0, 0.0, 0.0, 0.0)
    ensures m.totalGenerated == (if qrCodes.None? then 0 else |qrCodes.value|)
    ensures qrCodes.Some? && qrCodes.value != [] ==> m.successRate + m.errorRate == 100.0
    ensures 0.0 <= m.successRate <= 100.0 && 0.0 <= m.errorRate <= 100.0
    ensures qrCodes.Some? ==> m.averageGenerationTime * (|qrCodes.value| as real) == SumTimes(qrCodes.value)
    ensures qrCodes.Some? ==> m.successRate * (|qrCodes.value| as real) == 100.0 * CountSucceeded(qrCodes.value) as real
  {
    if qrCodes.None? || qrCodes.value == [] then
      QRMetrics(0, 0.0, 0.0, 0.0)
    else
      var s := qrCodes.value;
      CountsPartition(s);
      Rates(CountSucceeded(s) as real, CountFailed(s) as real, |s| as real, SumTimes(s))
  }

  /** The non-empty case: `ok` and `bad` entries out of `n`, times summing to `total`. */
  function Rates(ok: real, bad: real, n: real, total: real): (m: QRMetrics)
    requires 0.0 <= ok && 0.0 <= bad && ok + bad == n && n > 0.0
    requires n == n.Floor as real
    ensures m.totalGenerated as real == n
    ensures m.successRate + m.errorRate == 100.0
    ensures 0.0 <= m.successRate <= 100.0 && 0.0 <= m.errorRate <= 100.0
    ensures m.averageGenerationTime * n == total
    ensures m.successRate * n == 100.0 * ok
  {
    PercentsAddUp(ok, bad, n);
    RateBounds(ok, n);
    RateBounds(bad, n);
    ShareScales(total, n);
    ShareScales(ok * 100.0, n);
    assert (ok / n) * 100.0 == (ok * 100.0) / n;
    QRMetrics(n.Floor, (ok / n) * 100.0, total / n, (bad / n) * 100.0)
  }

  /** Two parts that make up a whole give percentages that add up to 100. */
  lemma PercentsAddUp(a: real, b: real, whole: real)
    requires a + b == whole && whole > 0.0
    ensures (a / whole) * 100.0 + (b / whole) * 100.0 == 100.0
  {
    assert a / whole + b / whole == 1.0;
  }

  /** Dividing by a positive number and multiplying back gives the dividend. */
  lemma ShareScales(x: real, whole: real)
    requires whole > 0.0
    ensures (x / whole) * whole == x
  {
  }

  /** A share of a positive whole, in percent, lies between 0 and 100. */
  lemma RateBounds(part: real, whole: real)
    requires 0.0 <= part <= whole && whole > 0.0
    ensures 0.0 <= (part / whole) * 100.0 <= 100.0
  {
    assert part / whole <= 1.0;
  }
}
