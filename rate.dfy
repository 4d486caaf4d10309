/** The completion rate that MyTasks.jsx and ProgressChart.jsx display:
    `total > 0 ? Math.round((done / total) * 100) : 0`. */
module Rate {

  /** The percentage of `done` in `total`, rounded to the nearest integer with
      halves rounded up, as `Math.round` does for non-negative numbers. */
  function CompletionRate(done: nat, total: nat): (r: nat)
    ensures total == 0 ==> r == 0
    ensures total > 0 ==> 2 * total * r <= 200 * done + total < 2 * total * (r + 1)
    ensures done <= total ==> r <= 100
  {
    if total == 0 then 0
    else
      var r := (200 * done + total) / (2 * total);
      assert 2 * total * r <= 200 * done + total < 2 * total * (r + 1) by {
        DivBounds(200 * done + total, 2 * total);
      }
      if done <= total then
        assert r < 101 by {
          assert 200 * done + total <= 2 * total * 100 + total;
          if r >= 101 {
            MulMonotonic(2 * total, 101, r);
          }
        }
        r
      else r
  }

  lemma DivBounds(a: nat, b: nat)
    requires b > 0
    ensures b * (a / b) <= a < b * (a / b + 1)
  {
  }

  lemma MulMonotonic(b: nat, x: nat, y: nat)
    requires x <= y
    ensures b * x <= b * y
  {
  }

  /** All done is 100%, none done is 0%. */
  lemma CompletionRateEnds(total: nat)
    requires total > 0
    ensures CompletionRate(total, total) == 100
    ensures CompletionRate(0, total) == 0
  {
    var r := CompletionRate(total, total);
    if r < 100 {
      MulMonotonic(2 * total, r + 1, 100);
    }
    var z := CompletionRate(0, total);
    if z > 0 {
      MulMonotonic(2 * total, 1, z);
    }
  }
}
