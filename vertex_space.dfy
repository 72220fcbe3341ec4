/** Conversion between the graphic's normalized points (fractions of the owning
    rectangle, measured from its centre) and rect-space points, as done by the
    getter and setter of `UIPoly.m_VertsWS`. */
module VertexSpace {
  import opened Geometry

  /** The getter's per-point map: centre plus size times the normalized point. */
  function ToRect(r: Rect, v: Vec2): Vec2
  {
    Vec2(r.Center().x + r.width * v.x, r.Center().y + r.height * v.y)
  }

  /** The setter divides by the rectangle's size, so both sides must be non-zero. */
  predicate Invertible(r: Rect)
  {
    r.width != 0.0 && r.height != 0.0
  }

  /** The setter's per-point map: rect-space point divided by size, minus the centre. */
  function FromRect(r: Rect, w: Vec2): Vec2
    requires Invertible(r)
  {
    Vec2(w.x / r.width - r.Center().x, w.y / r.height - r.Center().y)
  }

  /** The getter over the whole list. */
  function ToRectAll(r: Rect, vs: seq<Vec2>): seq<Vec2>
  {
    seq(|vs|, i requires 0 <= i < |vs| => ToRect(r, vs[i]))
  }

  /** The setter over the whole list. */
  function FromRectAll(r: Rect, ws: seq<Vec2>): seq<Vec2>
    requires Invertible(r)
  {
    seq(|ws|, i requires 0 <= i < |ws| => FromRect(r, ws[i]))
  }

  /** How far set-then-get moves a point: the centre minus size times centre. */
  function RoundTripOffset(r: Rect): Vec2
  {
    Vec2(r.Center().x - r.width * r.Center().x, r.Center().y - r.height * r.Center().y)
  }

  /** How far get-then-set moves a point: the centre over the size, minus the centre. */
  function ReverseTripOffset(r: Rect): Vec2
    requires Invertible(r)
  {
    Vec2(r.Center().x / r.width - r.Center().x, r.Center().y / r.height - r.Center().y)
  }

  /** Set-then-get leaves every point exactly where it was only when both offsets vanish. */
  predicate RoundTripsExactly(r: Rect)
  {
    RoundTripOffset(r) == Vec2(0.0, 0.0)
  }

  /** Writing a rect-space point and reading it back shifts it by `RoundTripOffset`. */
  lemma RoundTripShift(r: Rect, w: Vec2)
    requires Invertible(r)
    ensures ToRect(r, FromRect(r, w)) == w.Plus(RoundTripOffset(r))
  {
    // the size cancels against the division; spelled out so the nonlinear step is stable
    var c := r.Center();
    calc {
      r.width * (w.x / r.width - c.x);
      r.width * (w.x / r.width) - r.width * c.x;
      w.x - r.width * c.x;
    }
    calc {
      r.height * (w.y / r.height - c.y);
      r.height * (w.y / r.height) - r.height * c.y;
      w.y - r.height * c.y;
    }
  }

  /** Reading a normalized point in rect space and writing it back shifts it by `ReverseTripOffset`. */
  lemma ReverseTripShift(r: Rect, v: Vec2)
    requires Invertible(r)
    ensures FromRect(r, ToRect(r, v)) == v.Plus(ReverseTripOffset(r))
  {
    // the division distributes over the sum and cancels the size
    var c := r.Center();
    calc {
      (c.x + r.width * v.x) / r.width;
      c.x / r.width + (r.width * v.x) / r.width;
      c.x / r.width + v.x;
    }
    calc {
      (c.y + r.height * v.y) / r.height;
      c.y / r.height + (r.height * v.y) / r.height;
      c.y / r.height + v.y;
    }
  }

  /** One point survives set-then-get unchanged exactly when the rectangle round-trips exactly:
      each centre coordinate is zero or its side is 1. */
  lemma RoundTripExactIff(r: Rect, w: Vec2)
    requires Invertible(r)
    ensures ToRect(r, FromRect(r, w)) == w <==> RoundTripsExactly(r)
    ensures RoundTripsExactly(r) <==>
              (r.Center().x == 0.0 || r.width == 1.0) && (r.Center().y == 0.0 || r.height == 1.0)
  {
    RoundTripShift(r, w);
  }

  /** Setting the list and reading it back keeps its length and shifts each point by `RoundTripOffset`. */
  lemma SetThenGet(r: Rect, ws: seq<Vec2>)
    requires Invertible(r)
    ensures |ToRectAll(r, FromRectAll(r, ws))| == |ws|
    ensures forall i :: 0 <= i < |ws| ==>
              ToRectAll(r, FromRectAll(r, ws))[i] == ws[i].Plus(RoundTripOffset(r))
  {
    forall i | 0 <= i < |ws|
      ensures ToRectAll(r, FromRectAll(r, ws))[i] == ws[i].Plus(RoundTripOffset(r))
    {
      RoundTripShift(r, ws[i]);
    }
  }

  /** Set-then-get returns a non-empty list unchanged exactly when the rectangle round-trips exactly. */
  lemma SetThenGetIdentityIff(r: Rect, ws: seq<Vec2>)
    requires Invertible(r) && |ws| > 0
    ensures ToRectAll(r, FromRectAll(r, ws)) == ws <==> RoundTripsExactly(r)
  {
    SetThenGet(r, ws);
    RoundTripExactIff(r, ws[0]);
    if RoundTripsExactly(r) {
      forall i | 0 <= i < |ws| ensures ToRectAll(r, FromRectAll(r, ws))[i] == ws[i] {
        RoundTripExactIff(r, ws[i]);
      }
    }
  }

  /** With the rectangle centred on the origin, set-then-get is the identity. */
  lemma CenteredRoundTrip(r: Rect, ws: seq<Vec2>)
    requires Invertible(r) && r.Center() == Vec2(0.0, 0.0)
    ensures ToRectAll(r, FromRectAll(r, ws)) == ws
  {
    if |ws| > 0 {
      SetThenGetIdentityIff(r, ws);
      RoundTripExactIff(r, ws[0]);
    }
  }

  /** Reading the list in rect space and writing it back keeps its length and
      shifts each point by `ReverseTripOffset`. */
  lemma GetThenSet(r: Rect, vs: seq<Vec2>)
    requires Invertible(r)
    ensures |FromRectAll(r, ToRectAll(r, vs))| == |vs|
    ensures forall i :: 0 <= i < |vs| ==>
              FromRectAll(r, ToRectAll(r, vs))[i] == vs[i].Plus(ReverseTripOffset(r))
  {
    forall i | 0 <= i < |vs|
      ensures FromRectAll(r, ToRectAll(r, vs))[i] == vs[i].Plus(ReverseTripOffset(r))
    {
      ReverseTripShift(r, vs[i]);
    }
  }
}
