/**
 * A player's countdown clock (`Timer`): the one-second tick, the effect that
 * resets the time and starts or stops the interval when the clock is switched
 * on or off, and the MM:SS display.
 */
module Clock {

  function DigitChar(d: nat): (c: char)
    requires d < 10
    ensures '0' <= c <= '9' && c as int - '0' as int == d
  {
    ('0' as int + d) as char
  }

  predicate AllDigits(s: string)
  {
    forall i :: 0 <= i < |s| ==> '0' <= s[i] <= '9'
  }

  /** `n.toString()` for a non-negative integer: its decimal digits, no leading zero. */
  function Decimal(n: nat): (s: string)
    ensures |s| >= 1 && AllDigits(s)
    ensures |s| == 1 <==> n < 10
    ensures n >= 10 ==> s[0] != '0'
  {
    if n < 10 then [DigitChar(n)] else Decimal(n / 10) + [DigitChar(n % 10)]
  }

  /** The number a digit string denotes. */
  function Value(s: string): nat
    requires AllDigits(s)
  {
    if s == [] then 0 else 10 * Value(s[..|s| - 1]) + (s[|s| - 1] as int - '0' as int)
  }

  lemma {:induction false} DecimalValue(n: nat)
    ensures Value(Decimal(n)) == n
  {
    if n >= 10 {
      DecimalValue(n / 10);
      var s := Decimal(n);
      assert s[..|s| - 1] == Decimal(n / 10);
    }
  }

  lemma {:induction false} LeadingZero(s: string)
    requires AllDigits(s)
    ensures AllDigits("0" + s) && Value("0" + s) == Value(s)
  {
    if s != [] {
      LeadingZero(s[..|s| - 1]);
      assert ("0" + s)[..|"0" + s| - 1] == "0" + s[..|s| - 1];
    }
  }

  /** `padStart(2, '0')`: zeros in front up to length 2; longer strings stay as they are. */
  function PadStart2(s: string): (r: string)
    ensures |r| == if |s| >= 2 then |s| else 2
    ensures r[|r| - |s|..] == s
    ensures forall i :: 0 <= i < |r| - |s| ==> r[i] == '0'
  {
    if |s| >= 2 then s else seq(2 - |s|, _ => '0') + s
  }

  lemma PaddedDecimal(n: nat)
    ensures AllDigits(PadStart2(Decimal(n)))
    ensures Value(PadStart2(Decimal(n))) == n
    ensures |PadStart2(Decimal(n))| == 2 <==> n < 100
  {
    DecimalValue(n);
    var s := Decimal(n);
    if n < 10 {
      assert PadStart2(s) == "0" + s;
      LeadingZero(s);
    } else if n < 100 {
      assert Decimal(n / 10) == [DigitChar(n / 10)];
    } else {
      assert |Decimal(n / 10)| >= 2;
    }
  }

  /** `formatTime`: whole minutes and the remaining seconds, each padded to two digits. */
  function FormatTime(seconds: nat): string
  {
    PadStart2(Decimal(seconds / 60)) + ":" + PadStart2(Decimal(seconds % 60))
  }

  /**
   * The display reads back: the last three characters are ':' and two digits
   * worth less than 60, the part before the colon is at least two digits, and
   * 60 minutes plus the seconds give back the time; under 100 minutes the
   * display is exactly MM:SS.
   */
  lemma FormatTimeReadsBack(seconds: nat)
    ensures var t := FormatTime(seconds);
      && |t| >= 5 && t[|t| - 3] == ':'
      && AllDigits(t[..|t| - 3]) && AllDigits(t[|t| - 2..])
      && Value(t[|t| - 2..]) < 60
      && 60 * Value(t[..|t| - 3]) + Value(t[|t| - 2..]) == seconds
      && (|t| == 5 <==> seconds < 6000)
  {
    var m, r := seconds / 60, seconds % 60;
    MinutesSeconds(seconds);
    var mm, ss := PadStart2(Decimal(m)), PadStart2(Decimal(r));
    PaddedDecimal(m);
    PaddedDecimal(r);
    assert FormatTime(seconds) == mm + ":" + ss;
    ReadsBack(mm, ss, m, r, seconds);
  }

  lemma MinutesSeconds(seconds: nat)
    ensures seconds == 60 * (seconds / 60) + seconds % 60 && seconds % 60 < 60
    ensures seconds < 6000 <==> seconds / 60 < 100
  {
  }

  /** The display `mm:ss` read back, once its two parts are known to denote `m` and `r`. */
  lemma ReadsBack(mm: string, ss: string, m: nat, r: nat, seconds: nat)
    requires AllDigits(mm) && AllDigits(ss) && |ss| == 2 && |mm| >= 2 && Value(mm) == m && Value(ss) == r
    requires seconds == 60 * m + r && r < 60 && (|mm| == 2 <==> seconds < 6000)
    ensures var t := mm + ":" + ss;
      && |t| >= 5 && t[|t| - 3] == ':'
      && AllDigits(t[..|t| - 3]) && AllDigits(t[|t| - 2..])
      && Value(t[|t| - 2..]) < 60
      && 60 * Value(t[..|t| - 3]) + Value(t[|t| - 2..]) == seconds
      && (|t| == 5 <==> seconds < 6000)
  {
    ColonSplit(mm, ss);
  }

  /** The parts of `mm:ss` with a two-character `ss` are found again from the back. */
  lemma ColonSplit(mm: string, ss: string)
    requires |ss| == 2
    ensures var t := mm + ":" + ss;
      t[|t| - 3] == ':' && t[..|t| - 3] == mm && t[|t| - 2..] == ss
  {
    var t := mm + ":" + ss;
    assert t[..|t| - 3] == mm;
    assert t[|t| - 2..] == ss;
  }

  /** Different times never look alike. */
  lemma FormatTimeInjective(a: nat, b: nat)
    requires FormatTime(a) == FormatTime(b)
    ensures a == b
  {
    FormatTimeReadsBack(a);
    FormatTimeReadsBack(b);
  }

  datatype TickResult = TickResult(next: int, timeUp: bool)

  /** The interval's updater: at one second or less the clock stops at 0 and reports time up. */
  function Tick(prev: int): (r: TickResult)
    ensures r.timeUp <==> prev <= 1
    ensures r.next >= 0
    ensures !r.timeUp ==> r.next == prev - 1
    ensures r.timeUp ==> r.next == 0
  {
    if prev <= 1 then TickResult(0, true) else TickResult(prev - 1, false)
  }

  /** The time left after `k` ticks from `t`. */
  function After(t: int, k: nat): int
  {
    if k == 0 then t else Tick(After(t, k - 1)).next
  }

  /**
   * From `n` seconds the clock counts down one per tick and reports time up
   * on tick `n` exactly, not before.
   */
  lemma {:induction false} CountdownFrom(n: nat, k: nat)
    requires 1 <= n && k <= n
    ensures After(n, k) == n - k
    ensures k < n ==> (Tick(After(n, k)).timeUp <==> k == n - 1)
  {
    if k > 0 {
      CountdownFrom(n, k - 1);
    }
  }

  /**
   * The clock's state: the seconds shown, whether `intervalRef.current` holds
   * an interval id, and whether that interval is still live.
   */
  class Timer {
    var timeLeft: int
    var intervalRef: bool
    var ticking: bool

    /** A live interval is always the one the ref holds. */
    ghost predicate Valid()
      reads this
    {
      ticking ==> intervalRef
    }

    constructor(initialTime: int)
      ensures timeLeft == initialTime && !intervalRef && !ticking
      ensures Valid()
    {
      timeLeft := initialTime;
      intervalRef := false;
      ticking := false;
    }

    /**
     * One run of the effect, which runs again on every change of `isActive`,
     * `initialTime` or `onTimeUp`; since the board passes a fresh `onTimeUp`
     * on each of its renders, that is every board render. The previous run's
     * cleanup clears
     * the interval (keeping the ref), then the time is reset to `initialTime`
     * and a new interval starts if the clock is active and the time read at
     * render (the old one) is positive; an inactive clock drops its ref.
     */
    method Sync(isActive: bool, initialTime: int)
      requires Valid()
      modifies this
      ensures timeLeft == initialTime
      ensures ticking <==> isActive && old(timeLeft) > 0
      ensures intervalRef == (if isActive && old(timeLeft) > 0 then true else if isActive then old(intervalRef) else false)
      ensures Valid()
    {
      var renderedTime := timeLeft;
      if intervalRef {
        ticking := false;
      }
      timeLeft := initialTime;
      if isActive && renderedTime > 0 {
        ticking := true;
        intervalRef := true;
      } else if !isActive && intervalRef {
        intervalRef := false;
      }
    }

    /** One firing of the live interval: count down, or stop at 0 and report time up. */
    method OnTick() returns (timeUp: bool)
      requires Valid() && ticking
      modifies this
      ensures TickResult(timeLeft, timeUp) == Tick(old(timeLeft))
      ensures ticking == !timeUp && intervalRef == old(intervalRef)
      ensures Valid()
    {
      var prevTime := timeLeft;
      if prevTime <= 1 {
        ticking := false;
        timeLeft := 0;
        timeUp := true;
        return;
      }
      timeLeft := prevTime - 1;
      timeUp := false;
    }
  }
}
