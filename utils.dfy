/** Stateless helpers: the light colour palette, the ray-plane test and the
    screen-to-NDC step of screen picking. */
module Utils {
  import opened Glm

  datatype Option<T> = None | Some(value: T)

  /** The eight palette colours, in table order. */
  const Palette: seq<Vec3> := [
    Vec3(1.0, 0.2, 0.2), Vec3(0.2, 1.0, 0.2), Vec3(0.2, 0.2, 1.0), Vec3(1.0, 1.0, 0.2),
    Vec3(1.0, 0.2, 1.0), Vec3(0.2, 1.0, 1.0), Vec3(1.0, 0.6, 0.2), Vec3(0.6, 0.2, 1.0)
  ]

  /** C++'s `a % b` on int: the quotient is truncated toward zero, so the
      remainder takes the sign of `a`. */
  function CppRem(a: int, b: int): (r: int)
    requires b > 0
    ensures a >= 0 ==> r == a % b
    ensures -b < r < b
    ensures a < 0 ==> r <= 0 && r == -((-a) % b)
  {
    if a >= 0 then a % b else -((-a) % b)
  }

  /** getDistinctColor: colors[index % 8]. A negative index whose remainder is
      not zero reads outside the table, which the model reports as None. */
  function GetDistinctColor(index: int): (r: Option<Vec3>)
    ensures r.Some? ==> r.value in Palette
  {
    var k := CppRem(index, 8);
    if 0 <= k then Some(Palette[k]) else None
  }

  /** For a non-negative index the palette repeats every eight colours and
      colour i is table entry i mod 8. */
  lemma DistinctColorCycles(index: int)
    requires index >= 0
    ensures GetDistinctColor(index) == Some(Palette[index % 8])
    ensures GetDistinctColor(index + 8) == GetDistinctColor(index)
  {
  }

  /** A negative index gives a colour exactly when it is a multiple of 8, and
      then it is the first entry. */
  lemma DistinctColorNegative(index: int)
    requires index < 0
    ensures GetDistinctColor(index).Some? <==> index % 8 == 0
    ensures GetDistinctColor(index).Some? ==> GetDistinctColor(index).value == Palette[0]
  {
    var k := CppRem(index, 8);
    if k == 0 {
      assert index % 8 == 0;
    } else {
      assert (-index) % 8 != 0;
      assert index % 8 == 8 - (-index) % 8;
    }
  }

  /** The parallel-ray tolerance on |n . d|. */
  const ParallelEpsilon: real := 0.000001

  function Abs(a: real): real { if a < 0.0 then -a else a }

  /** rayPlaneIntersection: `intersectionPoint` is the caller's variable on entry
      and `point` its value on return; it is written only on a hit. */
  method RayPlaneIntersection(rayOrigin: Vec3, rayDirection: Vec3, planePoint: Vec3, planeNormal: Vec3,
                              intersectionPoint: Vec3)
    returns (hit: bool, point: Vec3)
    ensures var denom := Dot(planeNormal, rayDirection);
            hit <==> Abs(denom) >= ParallelEpsilon && Dot(Sub(planePoint, rayOrigin), planeNormal) / denom >= 0.0
    ensures !hit ==> point == intersectionPoint
    ensures hit ==> exists t: real :: t >= 0.0 && point == Add(rayOrigin, Scale(rayDirection, t))
    ensures hit ==> Dot(Sub(point, planePoint), planeNormal) == 0.0
  {
    point := intersectionPoint;
    var denom := Dot(planeNormal, rayDirection);
    if Abs(denom) < ParallelEpsilon {
      return false, point;
    }
    var t := Dot(Sub(planePoint, rayOrigin), planeNormal) / denom;
    if t < 0.0 {
      return false, point;
    }
    point := Add(rayOrigin, Scale(rayDirection, t));
    PointOnRayOnPlane(rayOrigin, rayDirection, planePoint, planeNormal, t);
    return true, point;
  }

  /** The point at parameter t = ((p - o) . n) / (n . d) along the ray lies on
      the plane through p with normal n. */
  lemma PointOnRayOnPlane(o: Vec3, d: Vec3, p: Vec3, n: Vec3, t: real)
    requires Dot(n, d) != 0.0 && t == Dot(Sub(p, o), n) / Dot(n, d)
    ensures Dot(Sub(Add(o, Scale(d, t)), p), n) == 0.0
  {
    var q := Add(o, Scale(d, t));
    calc {
      Dot(Sub(q, p), n);
      Dot(Sub(o, p), n) + t * Dot(n, d);
      -Dot(Sub(p, o), n) + (Dot(Sub(p, o), n) / Dot(n, d)) * Dot(n, d);
      0.0;
    }
  }

  /** A point on the screen, in pixels from the top-left corner. */
  datatype Pixel = Pixel(x: real, y: real)

  /** A point in normalized device coordinates. */
  datatype Ndc = Ndc(x: real, y: real)

  /** The first step of screenToWorld: screen pixels to [-1, 1], with screen y
      pointing down and NDC y pointing up. */
  function ScreenToNdc(s: Pixel, width: real, height: real): (n: Ndc)
    requires width != 0.0 && height != 0.0
    ensures (n.x + 1.0) * width == 2.0 * s.x && (1.0 - n.y) * height == 2.0 * s.y
  {
    assert ((2.0 * s.x) / width) * width == 2.0 * s.x;
    assert ((2.0 * s.y) / height) * height == 2.0 * s.y;
    Ndc((2.0 * s.x) / width - 1.0, 1.0 - (2.0 * s.y) / height)
  }

  /** The inverse mapping, from NDC back to screen pixels. */
  function NdcToScreen(n: Ndc, width: real, height: real): Pixel {
    Pixel((n.x + 1.0) * width / 2.0, (1.0 - n.y) * height / 2.0)
  }

  /** The screen edges land on the NDC edges: left to -1, right to +1, top to +1
      and bottom to -1. */
  lemma NdcCorners(width: real, height: real)
    requires width != 0.0 && height != 0.0
    ensures ScreenToNdc(Pixel(0.0, 0.0), width, height) == Ndc(-1.0, 1.0)
    ensures ScreenToNdc(Pixel(width, height), width, height) == Ndc(1.0, -1.0)
    ensures ScreenToNdc(Pixel(width / 2.0, height / 2.0), width, height) == Ndc(0.0, 0.0)
  {
  }

  /** Mapping to NDC and back gives the same pixel. */
  lemma NdcRoundTrip(sx: real, sy: real, width: real, height: real)
    requires width != 0.0 && height != 0.0
    ensures NdcToScreen(ScreenToNdc(Pixel(sx, sy), width, height), width, height) == Pixel(sx, sy)
  {
    var n := ScreenToNdc(Pixel(sx, sy), width, height);
    assert n.x + 1.0 == (2.0 * sx) / width;
    assert ((2.0 * sx) / width) * width == 2.0 * sx;
    assert 1.0 - n.y == (2.0 * sy) / height;
    assert ((2.0 * sy) / height) * height == 2.0 * sy;
    assert (n.x + 1.0) * width == 2.0 * sx;
    assert (1.0 - n.y) * height == 2.0 * sy;
    assert (n.x + 1.0) * width / 2.0 == sx;
    assert (1.0 - n.y) * height / 2.0 == sy;
  }
}
