/**
 Ray casting for detection zones, over the reals: the test counts, modulo two,
 the polygon edges a horizontal ray to the right of the point crosses.
 */
module Polygon {
  datatype Point = Point(x: real, y: real)

  /** The edge from `a` to `b` is crossed by the ray from (x, y). */
  predicate Crossed(x: real, y: real, a: Point, b: Point) {
    ((a.y > y) != (b.y > y)) && x < (b.x - a.x) * (y - a.y) / (b.y - a.y) + a.x
  }

  /** Parity of the crossed edges along a path of vertices. */
  function Parity(x: real, y: real, path: seq<Point>): bool {
    |path| >= 2 && (Crossed(x, y, path[1], path[0]) != Parity(x, y, path[1..]))
  }

  /** The closed path around a polygon. */
  function Around(polygon: seq<Point>): seq<Point> {
    if polygon == [] then [] else polygon + [polygon[0]]
  }

  predicate Inside(x: real, y: real, polygon: seq<Point>) {
    Parity(x, y, Around(polygon))
  }

  /** point_in_polygon: the loop over vertices, each paired with the one before it. */
  method PointInPolygon(x: real, y: real, polygon: seq<Point>) returns (inside: bool)
    ensures inside == Inside(x, y, polygon)
  {
    var n := |polygon|;
    inside := false;
    var j := n - 1;
    for i := 0 to n
      invariant j == if i == 0 then n - 1 else i - 1
      invariant inside == if i == 0 then false
                          else Crossed(x, y, polygon[0], polygon[n - 1]) != Parity(x, y, polygon[..i])
    {
      if Crossed(x, y, polygon[i], polygon[j]) {
        inside := !inside;
      }
      if i > 0 {
        ParitySnoc(x, y, polygon[..i], polygon[i]);
        assert polygon[..i] + [polygon[i]] == polygon[..i + 1];
      }
      j := i;
    }
    if n > 0 {
      assert polygon[..n] == polygon;
      ParitySnoc(x, y, polygon, polygon[0]);
    }
  }

  // ── Paths ──

  lemma {:induction false} ParityJoin(x: real, y: real, s: seq<Point>, p: Point, t: seq<Point>)
    ensures Parity(x, y, s + [p] + t) == (Parity(x, y, s + [p]) != Parity(x, y, [p] + t))
  {
    hide Crossed;
    if s == [] {
      assert s + [p] + t == [p] + t && s + [p] == [p];
    } else {
      assert (s + [p] + t)[1..] == s[1..] + [p] + t;
      assert (s + [p])[1..] == s[1..] + [p];
      ParityJoin(x, y, s[1..], p, t);
    }
  }

  lemma {:induction false} ParitySnoc(x: real, y: real, s: seq<Point>, p: Point)
    requires s != []
    ensures Parity(x, y, s + [p]) == (Parity(x, y, s) != Crossed(x, y, p, s[|s| - 1]))
  {
    hide Crossed;
    var last := s[|s| - 1];
    assert s[..|s| - 1] + [last] == s;
    ParityJoin(x, y, s[..|s| - 1], last, [p]);
    assert ([last] + [p])[1..] == [p];
  }

  /** Where the ray meets the line through an edge does not depend on the edge's direction. */
  lemma {:induction false} CrossedIsSymmetric(x: real, y: real, a: Point, b: Point)
    ensures Crossed(x, y, a, b) == Crossed(x, y, b, a)
  {
    if (a.y > y) != (b.y > y) {
      var d, w := b.y - a.y, b.x - a.x;
      var p, q := w * (y - a.y) / d, (a.x - b.x) * (y - b.y) / (a.y - b.y);
      assert p * d == w * (y - a.y);
      assert q * d == w * (y - b.y) by {
        assert q * (a.y - b.y) == (a.x - b.x) * (y - b.y);
        assert q * (a.y - b.y) == -(q * d);
        assert (a.x - b.x) * (y - b.y) == -(w * (y - b.y));
      }
      assert (p - q) * d == w * d by {
        assert w * (y - a.y) - w * (y - b.y) == w * d;
      }
      CancelFactor(p - q, w, d);
    }
  }

  lemma {:induction false} CancelFactor(u: real, v: real, d: real)
    requires d != 0.0 && u * d == v * d
    ensures u == v
  {
    assert (u - v) * d == 0.0;
  }

  function Reverse(s: seq<Point>): (r: seq<Point>)
    ensures |r| == |s|
  {
    if s == [] then [] else Reverse(s[1..]) + [s[0]]
  }

  lemma {:induction false} ReverseSnoc(s: seq<Point>, p: Point)
    ensures Reverse(s + [p]) == [p] + Reverse(s)
  {
    if s == [] {
      assert [] + [p] == [p];
      assert [p][1..] == [];
    } else {
      assert (s + [p])[1..] == s[1..] + [p];
      ReverseSnoc(s[1..], p);
    }
  }

  lemma {:induction false} ReverseLast(s: seq<Point>)
    requires s != []
    ensures Reverse(s)[|s| - 1] == s[0]
  {
  }

  lemma {:induction false} ParityReversed(x: real, y: real, s: seq<Point>)
    ensures Parity(x, y, Reverse(s)) == Parity(x, y, s)
  {
    hide Crossed;
    if |s| >= 2 {
      ParityReversed(x, y, s[1..]);
      ParitySnoc(x, y, Reverse(s[1..]), s[0]);
      ReverseLast(s[1..]);
      CrossedIsSymmetric(x, y, s[0], s[1]);
    } else if |s| == 1 {
      assert s[1..] == [] && Reverse(s) == [s[0]];
    }
  }

  // ── Main results ──

  /** Starting the vertex list elsewhere does not matter. */
  lemma {:induction false} InsideRotated(x: real, y: real, a: seq<Point>, b: seq<Point>)
    ensures Inside(x, y, a + b) == Inside(x, y, b + a)
  {
    hide Crossed, Parity;
    if a == [] || b == [] {
      assert a + b == b + a;
    } else {
      ParityJoin(x, y, a, b[0], b[1..] + [a[0]]);
      ParityJoin(x, y, b, a[0], a[1..] + [b[0]]);
      assert a + [b[0]] + (b[1..] + [a[0]]) == Around(a + b);
      assert b + [a[0]] + (a[1..] + [b[0]]) == Around(b + a);
      assert [b[0]] + (b[1..] + [a[0]]) == b + [a[0]];
      assert [a[0]] + (a[1..] + [b[0]]) == a + [b[0]];
    }
  }

  /** Neither does the direction in which the vertices are listed. */
  lemma {:induction false} InsideReversed(x: real, y: real, polygon: seq<Point>)
    ensures Inside(x, y, Reverse(polygon)) == Inside(x, y, polygon)
  {
    hide Crossed, Parity;
    if polygon != [] {
      var p, t := polygon[0], polygon[1..];
      assert polygon == [p] + t;
      InsideRotated(x, y, Reverse(t), [p]);
      ReverseSnoc(polygon, p);
      assert Around([p] + Reverse(t)) == [p] + (Reverse(t) + [p]);
      assert Around([p] + Reverse(t)) == Reverse(Around(polygon));
      ParityReversed(x, y, Around(polygon));
    }
  }

  /** Closing a path from `p` to `q` adds the edge between them. */
  lemma {:induction false} InsideOfPath(x: real, y: real, p: Point, mid: seq<Point>, q: Point)
    ensures Inside(x, y, [p] + mid + [q]) == (Parity(x, y, [p] + mid + [q]) != Crossed(x, y, p, q))
  {
    hide Crossed, Parity;
    ParitySnoc(x, y, [p] + mid + [q], p);
  }

  /** Two paths between `p` and `q` make a polygon. */
  lemma {:induction false} InsideOfTwoPaths(x: real, y: real, p: Point, b: seq<Point>, q: Point, c: seq<Point>)
    ensures Inside(x, y, [p] + b + [q] + c) == (Parity(x, y, [p] + b + [q]) != Parity(x, y, [q] + c + [p]))
  {
    hide Crossed, Parity;
    assert Around([p] + b + [q] + c) == ([p] + b) + [q] + (c + [p]);
    ParityJoin(x, y, [p] + b, q, c + [p]);
    assert [q] + (c + [p]) == [q] + c + [p];
  }

  /** Cutting a polygon along any chord: a point is inside the whole exactly when it is inside one of the two parts. */
  lemma {:induction false} InsideSplit(x: real, y: real, polygon: seq<Point>, i: nat, j: nat)
    requires i < j < |polygon|
    ensures Inside(x, y, polygon) ==
            (Inside(x, y, polygon[i..j + 1]) != Inside(x, y, polygon[j..] + polygon[..i + 1]))
  {
    hide Crossed, Parity, Inside;
    var a, p, b, q, c := polygon[..i], polygon[i], polygon[i + 1..j], polygon[j], polygon[j + 1..];
    assert polygon[i..j + 1] == [p] + b + [q];
    assert polygon[j..] + polygon[..i + 1] == [q] + (c + a) + [p] by {
      assert polygon[j..] == [q] + c && polygon[..i + 1] == a + [p];
    }
    assert polygon == a + ([p] + b + [q] + c);
    InsideRotated(x, y, a, [p] + b + [q] + c);
    assert [p] + b + [q] + c + a == [p] + b + [q] + (c + a);
    InsideOfTwoPaths(x, y, p, b, q, c + a);
    InsideOfPath(x, y, p, b, q);
    InsideOfPath(x, y, q, c + a, p);
    CrossedIsSymmetric(x, y, p, q);
  }
}
