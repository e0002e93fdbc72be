/**
 * The chronometer's reading: elapsed milliseconds split into minutes,
 * seconds and deciseconds with Java's truncating `long` division, and the
 * text drawn for it, `M′SS″D`.
 */
module TimeDisplay {
  import opened JavaNumbers

  /** The three numbers a chronometer draws. */
  datatype Reading = Reading(minutes: int, seconds: int, deciseconds: int)

  /**
   * `minutes = time/1000/60`, `seconds = time/1000 - minutes*60` and
   * `deciseconds = time/100 - seconds*10 - minutes*600`, each `/` truncating.
   */
  function Decompose(time: int): (d: Reading)
  {
    var minutes := Quot(Quot(time, 1000), 60);
    var seconds := Quot(time, 1000) - minutes * 60;
    Reading(minutes, seconds, Quot(time, 100) - seconds * 10 - minutes * 600)
  }

  /** The milliseconds a reading stands for. */
  function Millis(d: Reading): int
  {
    d.minutes * 60000 + d.seconds * 1000 + d.deciseconds * 100
  }

  /**
   * For a non-negative time the reading is a proper clock reading: whole
   * minutes, seconds below 60 and deciseconds below 10, and it stands for
   * the time rounded down to a tenth of a second.
   */
  lemma DecomposeNonNegative(time: int)
    requires time >= 0
    ensures var d := Decompose(time);
            d.minutes == time / 60000 && 0 <= d.seconds < 60 && 0 <= d.deciseconds < 10 &&
            Millis(d) <= time < Millis(d) + 100
  {
    var q, r := time / 1000, time % 1000;
    var m, s := q / 60, q % 60;
    assert time == 60000 * m + 1000 * s + r;
    EuclidUnique(time, 60000, m, 1000 * s + r);
    EuclidUnique(time, 100, 600 * m + 10 * s + r / 100, r % 100);
  }

  /** A negative time reads as the negated reading of its magnitude: truncation is symmetric about zero. */
  lemma DecomposeNegative(time: int)
    requires time < 0
    ensures Decompose(time) == Reading(-Decompose(-time).minutes, -Decompose(-time).seconds, -Decompose(-time).deciseconds)
  {
  }

  /** The decimal digits of a natural number, most significant first. */
  function NatString(n: nat): (s: string)
  {
    if n < 10 then [DigitChar(n)] else NatString(n / 10) + [DigitChar(n % 10)]
  }

  /** The digits of a natural number are at least one decimal digit character. */
  lemma {:induction false} NatStringDigits(n: nat)
    ensures |NatString(n)| >= 1 && forall i :: 0 <= i < |NatString(n)| ==> '0' <= NatString(n)[i] <= '9'
  {
    if n >= 10 {
      NatStringDigits(n / 10);
    }
  }

  /** The decimal digit character for `d`. */
  function DigitChar(d: nat): (c: char)
    requires d < 10
    ensures '0' <= c <= '9' && (c as int) - ('0' as int) == d
  {
    ['0', '1', '2', '3', '4', '5', '6', '7', '8', '9'][d]
  }

  /** `Long.toString`: an optional minus sign and the digits of the magnitude. */
  function LongString(n: int): string
  {
    if n < 0 then "-" + NatString(-n) else NatString(n)
  }

  /** The value of a string of decimal digits. */
  function ParseDigits(s: string): int
  {
    if |s| == 0 then 0 else 10 * ParseDigits(s[..|s| - 1]) + ((s[|s| - 1] as int) - ('0' as int))
  }

  /** Reading the digits back gives the number written. */
  lemma {:induction false} ParseNatString(n: nat)
    ensures ParseDigits(NatString(n)) == n
  {
    var s := NatString(n);
    if n >= 10 {
      assert s[..|s| - 1] == NatString(n / 10);
      assert s[|s| - 1] == DigitChar(n % 10);
      ParseNatString(n / 10);
    } else {
      assert s[..|s| - 1] == [];
    }
  }

  /** The seconds field: a `"0"` is put in front of any value below 10. */
  function SecondsString(seconds: int): string
  {
    (if seconds < 10 then "0" else "") + LongString(seconds)
  }

  /** For a clock's seconds the field is exactly two digits that read back as the seconds. */
  lemma SecondsStringTwoDigits(seconds: int)
    requires 0 <= seconds < 60
    ensures |SecondsString(seconds)| == 2
    ensures forall i :: 0 <= i < 2 ==> '0' <= SecondsString(seconds)[i] <= '9'
    ensures ParseDigits(SecondsString(seconds)) == seconds
  {
    var s := SecondsString(seconds);
    ParseNatString(seconds);
    NatStringDigits(seconds);
    if seconds < 10 {
      assert s == ['0', DigitChar(seconds)];
      assert s[..1] == "0";
    } else {
      assert s == NatString(seconds);
      assert NatString(seconds / 10) == [DigitChar(seconds / 10)];
    }
  }

  /** The whole text drawn: minutes, a prime, the seconds field, a double prime and the deciseconds. */
  function Text(d: Reading): string
  {
    LongString(d.minutes) + "′" + SecondsString(d.seconds) + "″" + LongString(d.deciseconds)
  }
}
