/** Where and when the trainer writes weight checkpoints. */
module Checkpoints {
  import opened Config

  /** The decimal digit character for d. */
  function DigitChar(d: nat): char
    requires d < 10
  {
    "0123456789"[d]
  }

  /** The value of a decimal digit character. */
  function DigitValue(c: char): int
  {
    c as int - '0' as int
  }

  /** The decimal spelling of n, as the "%d" conversion writes it: no sign, no leading zeros. */
  function DecimalString(n: nat): (s: string)
    ensures 1 <= |s|
    ensures |s| == 1 <==> n < 10
  {
    if n < 10 then [DigitChar(n)] else DecimalString(n / 10) + [DigitChar(n % 10)]
  }

  /** The decimal spelling is a non-empty string of digits without a leading zero. */
  lemma {:induction false} DecimalStringDigits(n: nat)
    ensures 1 <= |DecimalString(n)|
    ensures forall k :: 0 <= k < |DecimalString(n)| ==> '0' <= DecimalString(n)[k] <= '9'
    ensures |DecimalString(n)| > 1 ==> DecimalString(n)[0] != '0'
  {
    if n >= 10 {
      DecimalStringDigits(n / 10);
    }
  }

  /** Reads a string of decimal digits back as a number. */
  function ParseDecimal(s: string): int
  {
    if s == [] then 0 else ParseDecimal(s[..|s| - 1]) * 10 + DigitValue(s[|s| - 1])
  }

  /** Parsing the decimal spelling of n gives back n. */
  lemma {:induction false} ParseDecimalString(n: nat)
    ensures ParseDecimal(DecimalString(n)) == n
  {
    var s := DecimalString(n);
    DecimalStringDigits(n);
    if n < 10 {
      assert s[..|s| - 1] == [];
      assert DigitValue(s[0]) == n;
    } else {
      ParseDecimalString(n / 10);
      assert s[..|s| - 1] == DecimalString(n / 10);
      assert DigitValue(s[|s| - 1]) == n % 10;
    }
  }

  /** Distinct numbers have distinct decimal spellings. */
  lemma DecimalStringInjective(m: nat, n: nat)
    requires DecimalString(m) == DecimalString(n)
    ensures m == n
  {
    ParseDecimalString(m);
    ParseDecimalString(n);
  }

  /** The file a checkpoint of episode i is written to: the base path, then "/CartPole_MonteCarloW" and i in decimal. */
  function CheckpointPath(base: string, i: nat): (file: string)
    ensures |file| == |base| + |"/CartPole_MonteCarloW"| + |DecimalString(i)|
    ensures file[..|base|] == base && file[|base|] == '/'
  {
    base + "/CartPole_MonteCarloW" + DecimalString(i)
  }

  /** Checkpoints of different episodes never overwrite each other. */
  lemma CheckpointPathsDistinct(base: string, i: nat, j: nat)
    requires i != j
    ensures CheckpointPath(base, i) != CheckpointPath(base, j)
  {
    var prefix := base + "/CartPole_MonteCarloW";
    if CheckpointPath(base, i) == CheckpointPath(base, j) {
      assert CheckpointPath(base, i)[|prefix|..] == DecimalString(i);
      assert CheckpointPath(base, j)[|prefix|..] == DecimalString(j);
      DecimalStringInjective(i, j);
    }
  }

  /** Whether episode i ends with a checkpoint: its index is a multiple of SAVE_FREQUENCY. */
  predicate Due(i: nat)
    ensures Due(i) <==> (i / SAVE_FREQUENCY) * SAVE_FREQUENCY == i
  {
    i % SAVE_FREQUENCY == 0
  }

  /** The episode indices below n on which a checkpoint is written, in increasing order. */
  function SaveIndices(n: nat, frequency: nat): (indices: seq<nat>)
    requires frequency > 0
    ensures forall k :: 0 <= k < |indices| ==> indices[k] < n && indices[k] % frequency == 0
  {
    if n == 0 then []
    else SaveIndices(n - 1, frequency) + (if (n - 1) % frequency == 0 then [n - 1] else [])
  }

  /** An index below n is a checkpoint index exactly when the frequency divides it. */
  lemma {:induction false} SaveIndicesMembers(n: nat, frequency: nat)
    requires frequency > 0
    ensures forall j: nat :: j in SaveIndices(n, frequency) <==> j < n && j % frequency == 0
  {
    if n > 0 {
      SaveIndicesMembers(n - 1, frequency);
      var extra := if (n - 1) % frequency == 0 then [n - 1] else [];
      assert SaveIndices(n, frequency) == SaveIndices(n - 1, frequency) + extra;
      forall j: nat
        ensures j in SaveIndices(n, frequency) <==> j < n && j % frequency == 0
      {
        assert j in SaveIndices(n, frequency) <==> j in SaveIndices(n - 1, frequency) || j in extra;
      }
    }
  }

  /** The k-th checkpoint index is k times the frequency, and there are ceil(n / frequency) of them. */
  lemma {:induction false} SaveIndicesShape(n: nat, frequency: nat)
    requires frequency > 0
    ensures |SaveIndices(n, frequency)| == (n + frequency - 1) / frequency
    ensures forall k :: 0 <= k < |SaveIndices(n, frequency)| ==> SaveIndices(n, frequency)[k] == k * frequency
  {
    if n > 0 {
      SaveIndicesShape(n - 1, frequency);
      CeilDivStep(n - 1, frequency);
    }
  }

  /** Moving from m to m + 1 items, ceil(. / f) grows by one exactly when f divides m, and then m is the old ceiling times f. */
  lemma CeilDivStep(m: nat, f: nat)
    requires f > 0
    ensures (m + f) / f == (m + f - 1) / f + (if m % f == 0 then 1 else 0)
    ensures m % f == 0 ==> (m + f - 1) / f * f == m
  {
    var q, r := m / f, m % f;
    if r == 0 {
      DivExact(m + f - 1, f, q, f - 1);
      DivExact(m + f, f, q + 1, 0);
    } else {
      DivExact(m + f - 1, f, q + 1, r - 1);
      DivExact(m + f, f, q + 1, r);
    }
  }

  /** Quotient and remainder are determined by any decomposition n == q * f + r with 0 <= r < f. */
  lemma DivExact(n: int, f: int, q: int, r: int)
    requires f > 0 && n == q * f + r && 0 <= r < f
    ensures n / f == q && n % f == r
  {
    var q', r' := n / f, n % f;
    assert n == q' * f + r';
    if q' < q {
      assert (q - q') * f >= f by { MulAtLeast(q - q', f); }
    } else if q' > q {
      assert (q' - q) * f >= f by { MulAtLeast(q' - q, f); }
    }
  }

  /** A positive integer times f is at least f. */
  lemma MulAtLeast(k: int, f: int)
    requires k >= 1 && f > 0
    ensures k * f >= f
  {
  }

  /** Number of checkpoints over a full run: ceil(TOTAL_EPISODES / SAVE_FREQUENCY), here 100. */
  lemma RunCheckpointCount()
    ensures |SaveIndices(TOTAL_EPISODES, SAVE_FREQUENCY)| == (TOTAL_EPISODES + SAVE_FREQUENCY - 1) / SAVE_FREQUENCY == 100
  {
    SaveIndicesShape(TOTAL_EPISODES, SAVE_FREQUENCY);
  }
}
