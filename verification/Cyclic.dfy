/** Counting round a cycle of `h` places. */
module Cyclic {
  /** `a` modulo `h`, by taking away whole rounds. */
  function Remainder(a: nat, h: nat): (r: nat)
    requires h > 0
    ensures r < h && (a < h ==> r == a)
  {
    if a < h then a else Remainder(a - h, h)
  }

  /** Moving on by less than a round wraps around at most once. */
  lemma {:induction false} RemainderPlus(a: nat, d: nat, h: nat)
    requires d < h
    ensures Remainder(a + d, h) ==
      if Remainder(a, h) + d < h then Remainder(a, h) + d else Remainder(a, h) + d - h
  {
    if a >= h {
      RemainderPlus(a - h, d, h);
    }
  }

  /** The same as the remainder operator. */
  lemma {:induction false} RemainderIsMod(a: nat, h: nat)
    requires h > 0
    ensures Remainder(a, h) == a % h
  {
    if a >= h {
      RemainderIsMod(a - h, h);
      var q := (a - h) / h;
      assert a - h == q * h + Remainder(a, h);
      assert a == (q + 1) * h + Remainder(a, h);
      ModIs(a, q + 1, Remainder(a, h), h);
    }
  }

  lemma ModIs(a: int, q: int, r: int, h: nat)
    requires 0 <= r < h && a == q * h + r
    ensures a % h == r
  {
    var q', r' := a / h, a % h;
    assert a == q' * h + r';
    assert (q - q') * h == r' - r;
    Multiple(q - q', h);
  }

  lemma Multiple(x: int, h: int)
    requires h > 0
    ensures x >= 1 ==> x * h >= h
    ensures x <= -1 ==> x * h <= -h
  {
  }

  lemma {:induction false} RemainderOnce(a: nat, b: nat, h: nat)
    requires h > 0 && a <= b < a + h && Remainder(a, h) == Remainder(b, h)
    ensures a == b
  {
    if a >= h {
      RemainderOnce(a - h, b - h, h);
    }
  }

  /** Counting up from `a`, every remainder comes within `h` steps. */
  lemma TurnComes(a: nat, i: nat, h: nat) returns (k: nat)
    requires i < h
    ensures a <= k < a + h && Remainder(k, h) == i
  {
    var r := Remainder(a, h);
    var d := if r <= i then i - r else h - (r - i);
    RemainderPlus(a, d, h);
    k := a + d;
  }
}
