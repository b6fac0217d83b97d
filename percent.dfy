/**
 * The completion rate shown on the projects and profile pages:
 * `total > 0 ? Math.round((done / total) * 100) : 0`, computed on integers.
 */
module Percent {

  /**
   * Rounds `100 * done / total` to the nearest integer, halves upwards, as
   * `Math.round` does for non-negative numbers; 0 when there is nothing to count.
   */
  function CompletionRate(done: nat, total: nat): (r: int)
    ensures total == 0 ==> r == 0
    ensures total > 0 ==> 2 * total * r - total <= 200 * done < 2 * total * r + total
  {
    if total > 0 then (200 * done + total) / (2 * total) else 0
  }

  /** The rate of a part of a whole is a percentage, and 100 exactly when all is done. */
  lemma {:induction false} CompletionRateBounds(done: nat, total: nat)
    requires done <= total
    ensures 0 <= CompletionRate(done, total) <= 100
    ensures total > 0 && done == total ==> CompletionRate(done, total) == 100
    ensures done == 0 ==> CompletionRate(done, total) == 0
  {
    if total > 0 {
      var r := CompletionRate(done, total);
      assert 2 * total * r - total <= 200 * done < 2 * total * r + total;
      assert 200 * done <= 200 * total;
      if r > 100 {
        assert 2 * total * r >= 2 * total * 101 by {
          assert r >= 101;
          MultiplyMonotone(2 * total, 101, r);
        }
        assert false;
      }
      if r < 0 {
        assert 2 * total * r <= 2 * total * -1 by {
          MultiplyMonotone(2 * total, r, -1);
        }
        assert false;
      }
      if done == total && r < 100 {
        assert 2 * total * r <= 2 * total * 99 by {
          MultiplyMonotone(2 * total, r, 99);
        }
        assert false;
      }
      if done == 0 && r > 0 {
        assert 2 * total * r >= 2 * total * 1 by {
          MultiplyMonotone(2 * total, 1, r);
        }
        assert false;
      }
    }
  }

  lemma MultiplyMonotone(k: nat, a: int, b: int)
    requires a <= b
    ensures k * a <= k * b
  {
    assert k * b - k * a == k * (b - a);
  }
}
