/**
  Remainders of multiples.
*/
module Division {
  lemma RemainderOf(q: int, step: int, r: int)
    requires step >= 1 && 0 <= r < step
    ensures (q * step + r) % step == r
  {
    var n := q * step + r;
    var k := q - n / step;
    assert k * step == n % step - r by {
      assert n == step * (n / step) + n % step;
    }
    Multiple(k, step);
  }

  lemma Multiple(k: int, step: int)
    requires step >= 1 && -step < k * step < step
    ensures k == 0
  {
    Grows(k, step);
  }

  lemma Grows(k: int, step: int)
    requires step >= 1
    ensures k >= 1 ==> k * step >= step
    ensures k <= -1 ==> k * step <= -step
  {
  }
}
