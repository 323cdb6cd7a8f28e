/** Arithmetic on struct timeval. */
module Times {
  const MILLION := 1000000

  datatype Time = Time(sec: int, usec: int) {
    function Micros(): int { sec * MILLION + usec }
    predicate Normal() { 0 <= usec < MILLION }
  }

  const ZERO: Time := Time(0, 0)

  function AddTime(t: Time, sec: int): Time {
    Time(t.sec + sec, t.usec)
  }

  function CompareTime(a: Time, b: Time): int {
    if a.sec == b.sec then if a.usec == b.usec then 0 else if a.usec < b.usec then -1 else 1
    else if a.sec < b.sec then -1
    else 1
  }

  /** A borrow is taken from nowhere: the seconds keep it, and the microseconds of the first time are dropped
      instead. */
  function SubtractTime(a: Time, b: Time): Time {
    if CompareTime(a, b) <= 0 then ZERO
    else Time(a.sec - b.sec, (if b.usec > a.usec then MILLION else a.usec) - b.usec)
  }

  /** Normal times are ordered as the microseconds they stand for. */
  lemma CompareIsOrder(a: Time, b: Time)
    requires a.Normal() && b.Normal()
    ensures CompareTime(a, b) < 0 <==> a.Micros() < b.Micros()
    ensures CompareTime(a, b) == 0 <==> a.Micros() == b.Micros()
    ensures CompareTime(a, b) == 0 <==> a == b
  {
    if a.sec < b.sec { assert a.Micros() < (a.sec + 1) * MILLION <= b.sec * MILLION; }
    if b.sec < a.sec { assert b.Micros() < (b.sec + 1) * MILLION <= a.sec * MILLION; }
  }

  /** The difference is never too short, at most a second too long, and right exactly when nothing had to be
      borrowed. */
  lemma SubtractIsABound(a: Time, b: Time)
    requires a.Normal() && b.Normal() && b.Micros() < a.Micros()
    ensures SubtractTime(a, b).Normal() && SubtractTime(a, b).Micros() > 0
    ensures a.Micros() - b.Micros() <= SubtractTime(a, b).Micros() <= a.Micros() - b.Micros() + MILLION
    ensures SubtractTime(a, b).Micros() == a.Micros() - b.Micros() <==> b.usec <= a.usec
  {
    CompareIsOrder(b, a);
    CompareIsOrder(a, b);
  }

  /** What is over takes no time. */
  lemma SubtractIsZero(a: Time, b: Time)
    requires a.Normal() && b.Normal()
    ensures SubtractTime(a, b) == ZERO <==> a.Micros() <= b.Micros()
  {
    CompareIsOrder(a, b);
    if b.Micros() < a.Micros() { SubtractIsABound(a, b); }
  }
}
