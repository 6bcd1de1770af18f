/** Positions on a ring of c cells: position p lives in cell p % c. */
module Ring {
  import Bits

  function Slot(p: nat, c: nat): (i: nat)
    requires c > 0
    ensures i < c
  {
    p % c
  }

  lemma SlotOfNext(p: nat, c: nat)
    requires c > 0
    ensures Slot(p + c, c) == Slot(p, c)
  {
    assert p + c == (p / c + 1) * c + p % c by { assert (p / c + 1) * c == p / c * c + c; }
    Bits.ModUnique(p + c, c, p / c + 1, p % c);
  }

  lemma SlotDistinct(p: nat, q: nat, c: nat)
    requires c > 0 && p < q < p + c
    ensures Slot(p, c) != Slot(q, c)
  {
    if Slot(p, c) == Slot(q, c) {
      Bits.SmallMultiple(q / c - p / c, c, q - p) by {
        assert (q / c - p / c) * c == q / c * c - p / c * c;
      }
    }
  }

  /** Every position has a companion in the same cell inside the window [lo, lo + c). */
  lemma {:induction false} Companion(p: nat, lo: nat, c: nat) returns (w: nat)
    requires c > 0 && p <= lo
    ensures lo <= w < lo + c && Slot(w, c) == Slot(p, c)
    decreases lo - p
  {
    if lo < p + c {
      w := p;
      if p < lo { SlotOfNext(p, c); w := p + c; }
    } else {
      SlotOfNext(p, c);
      w := Companion(p + c, lo, c);
    }
  }
}
