/** The two gaze-to-quadrant maps: a normalised gaze point `(x, y)` on the screen surface
    becomes the index of the agent view the user is looking at. Column 0 is the left half,
    column 1 the right half; the two devices number the rows differently. */
module Gaze {
  import opened Values

  /** `compute_focus_area` of the mabmi eye-tracker client: the closed unit square, with
      (0, 0) at the bottom left; the top row is 0, 1 and the bottom row 2, 3. */
  function MabmiFocusArea(x: real, y: real): (r: Option<nat>)
    ensures r.Some? <==> 0.0 <= x <= 1.0 && 0.0 <= y <= 1.0
    ensures r.Some? ==> r.value < 4
    ensures r.Some? ==> (r.value % 2 == 1 <==> x >= 0.5)
    ensures r.Some? ==> (r.value / 2 == 1 <==> y < 0.5)
  {
    if 0.0 <= x < 0.5 then
      if 0.5 <= y <= 1.0 then Some(0)
      else if 0.0 <= y < 0.5 then Some(2)
      else None
    else if 0.5 <= x <= 1.0 then
      if 0.5 <= y <= 1.0 then Some(1)
      else if 0.0 <= y < 0.5 then Some(3)
      else None
    else None
  }

  /** `compute_focus_area` of the standalone pupil client: the half-open unit square, so a
      coordinate of exactly 1 falls outside; the row with `y < 0.5` is 0, 1. */
  function ClientFocusArea(x: real, y: real): (r: Option<nat>)
    ensures r.Some? <==> 0.0 <= x < 1.0 && 0.0 <= y < 1.0
    ensures r.Some? ==> r.value < 4
    ensures r.Some? ==> (r.value % 2 == 1 <==> x >= 0.5)
    ensures r.Some? ==> (r.value / 2 == 1 <==> y >= 0.5)
  {
    if 0.0 <= x < 0.5 then
      if 0.0 <= y < 0.5 then Some(0)
      else if 0.5 <= y < 1.0 then Some(2)
      else None
    else if 0.5 <= x < 1.0 then
      if 0.0 <= y < 0.5 then Some(1)
      else if 0.5 <= y < 1.0 then Some(3)
      else None
    else None
  }

  /** Inside the half-open square the two devices agree on the column and swap the rows. */
  lemma RowsSwapped(x: real, y: real)
    requires 0.0 <= x < 1.0 && 0.0 <= y < 1.0
    ensures MabmiFocusArea(x, y).Some? && ClientFocusArea(x, y).Some?
    ensures MabmiFocusArea(x, y).value == (ClientFocusArea(x, y).value + 2) % 4
  {
    var m := MabmiFocusArea(x, y).value;
    var c := ClientFocusArea(x, y).value;
    assert m % 2 == c % 2 && m / 2 != c / 2;
  }

  /** On the top and right edges only the mabmi map answers. */
  lemma EdgesDiffer(x: real, y: real)
    requires 0.0 <= x <= 1.0 && 0.0 <= y <= 1.0 && (x == 1.0 || y == 1.0)
    ensures MabmiFocusArea(x, y).Some? && ClientFocusArea(x, y).None?
  {
  }

  /** Each quadrant of the closed square is reached by exactly the points of that quadrant. */
  lemma MabmiQuadrants(x: real, y: real, q: nat)
    requires q < 4
    ensures MabmiFocusArea(x, y) == Some(q) <==>
      0.0 <= x <= 1.0 && 0.0 <= y <= 1.0 && (q % 2 == 1 <==> x >= 0.5) && (q / 2 == 1 <==> y < 0.5)
  {
    if 0.0 <= x <= 1.0 && 0.0 <= y <= 1.0 {
      var m := MabmiFocusArea(x, y).value;
      assert (q % 2 == 1 <==> x >= 0.5) && (q / 2 == 1 <==> y < 0.5) ==> m % 2 == q % 2 && m / 2 == q / 2;
    }
  }
}
