/** Days and machine integers. */
module Units {
  const SECONDS_PER_DAY := 86400

  /** The UTC day of a moment given in seconds. */
  function DayOf(moment: int): int {
    moment / SECONDS_PER_DAY
  }

  /** A day has 86400 seconds, before the first one too. */
  lemma DayIs(day: int, second: int)
    requires 0 <= second < 86400
    ensures DayOf(86400 * day + second) == day
  {
  }

  /** An integer as a 32-bit counter holds it. */
  function Int32(n: int): int {
    (n + 0x8000_0000) % 0x1_0000_0000 - 0x8000_0000
  }

  lemma Int32Fits(n: int)
    requires -0x8000_0000 <= n < 0x8000_0000
    ensures Int32(n) == n
  {
  }

  /** A counter differs from what it should hold by whole turns. */
  lemma Int32Congruent(n: int)
    ensures exists k: int :: Int32(n) == n + k * 0x1_0000_0000
    ensures -0x8000_0000 <= Int32(n) < 0x8000_0000
  {
    var m := n + 0x8000_0000;
    assert m == m / 0x1_0000_0000 * 0x1_0000_0000 + m % 0x1_0000_0000;
    assert Int32(n) == n + (-(m / 0x1_0000_0000)) * 0x1_0000_0000;
  }

  /** Wrapping early or late makes no difference to a sum. */
  lemma Int32Adds(x: int, y: int)
    ensures Int32(Int32(x) + Int32(y)) == Int32(x + y)
  {
    Int32Congruent(x);
    Int32Congruent(y);
    var k :| Int32(x) == x + k * 0x1_0000_0000;
    var l :| Int32(y) == y + l * 0x1_0000_0000;
    var m := x + y + 0x8000_0000;
    assert Int32(x) + Int32(y) + 0x8000_0000 == m + (k + l) * 0x1_0000_0000;
    ModShift(m, k + l);
  }

  lemma ModShift(m: int, k: int)
    ensures (m + k * 0x1_0000_0000) % 0x1_0000_0000 == m % 0x1_0000_0000
  {
    var q, r := m / 0x1_0000_0000, m % 0x1_0000_0000;
    assert m == q * 0x1_0000_0000 + r;
    assert m + k * 0x1_0000_0000 == (q + k) * 0x1_0000_0000 + r;
  }
}
