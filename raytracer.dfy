/** The camera and pixel loop of Raytracer.h / Raytracer.cpp.

    Every pixel's colour is a pure function of its row and column, the framebuffer's
    dimensions and the projection mode; `Raytrace` is the nested row/column loop that writes
    those values into the framebuffer.  `tan`, `M_PI` and `Cartesian3::unit()` are not
    modelled: they arrive as a `MathLib` value and nothing is assumed about them. */
module Raytracer {
  import opened Algebra
  import opened Geometry

  /** The two rendering modes. */
  const RT_ORTHO: nat := 0
  const RT_PERSPECTIVE: nat := 1

  /** The floating-point library the camera relies on, left uninterpreted. */
  datatype MathLib = MathLib(
    tan: real -> real,    // tan
    unit: Vec3 -> Vec3,   // Cartesian3::unit()
    pi: real              // M_PI
  )

  /** A framebuffer cell: the four arguments given to the RGBAValue constructor. */
  datatype Pixel = Pixel(red: real, green: real, blue: real, alpha: real)

  // ---------------------------------------------------------------------------------------
  // From pixel indices to camera space
  // ---------------------------------------------------------------------------------------

  /** A positive quotient below its divisor lies strictly inside (0, 1). */
  lemma QuotientInsideUnit(a: real, n: real)
    requires 0.0 < a < n
    ensures 0.0 < a / n < 1.0
  {
    var q := a / n;
    assert q * n == a;
    if q <= 0.0 {
      assert false;
    }
    if q >= 1.0 {
      assert false;
    }
  }

  /** Normalised device coordinate of a pixel centre: `(i + 0.5) / size`, strictly inside (0, 1). */
  function Ndc(i: nat, size: nat): (r: real)
    requires i < size
    ensures 0.0 < r < 1.0
  {
    QuotientInsideUnit(i as real + 0.5, size as real);
    (i as real + 0.5) / size as real
  }

  /** Image-plane coordinate `2 * ndc - 1`. */
  function Screen(i: nat, size: nat): real
    requires i < size
  {
    2.0 * Ndc(i, size) - 1.0
  }

  /** Screen coordinates lie strictly inside (-1, 1). */
  lemma ScreenInside(i: nat, size: nat)
    requires i < size
    ensures -1.0 < Screen(i, size) < 1.0
  {
  }

  /** Mirrored pixels get negated screen coordinates, so the image plane is centred on the
      optical axis. */
  lemma ScreenMirrored(i: nat, size: nat)
    requires i < size
    ensures Screen(size - 1 - i, size) == -Screen(i, size)
  {
    var n := size as real;
    var a := i as real + 0.5;
    assert (size - 1 - i) as real + 0.5 == n - a;
    assert n / n == 1.0;
    assert (n - a) / n == n / n - a / n;
  }

  /** The field of view as the code computes it: `90 * (pi / 2)`, a value in radians that
      was evidently meant to be 90 degrees. */
  function FovRadians(math: MathLib): real {
    90.0 * (math.pi / 2.0)
  }

  /** The half-angle handed to `tan` is 22.5 pi, not the quarter turn pi / 4 of a
      90-degree field of view.  It is 45 (an odd number) times pi / 2, a pole of tan. */
  lemma HalfFovIsNotQuarterTurn(math: MathLib)
    requires math.pi > 0.0
    ensures FovRadians(math) / 2.0 == 22.5 * math.pi
    ensures FovRadians(math) / 2.0 == 45.0 * (math.pi / 2.0)
    ensures FovRadians(math) / 2.0 != math.pi / 4.0
  {
  }

  /** Width over height. */
  function AspectRatio(width: nat, height: nat): real
    requires height > 0
  {
    width as real / height as real
  }

  /** Camera-space coordinates of a pixel centre on the image plane: the screen coordinates
      scaled by `tan(fov / 2)`, the horizontal one also by the aspect ratio. */
  function CameraX(col: nat, width: nat, height: nat, math: MathLib): real
    requires col < width && height > 0
  {
    Screen(col, width) * AspectRatio(width, height) * math.tan(FovRadians(math) / 2.0)
  }

  function CameraY(row: nat, height: nat, math: MathLib): real
    requires row < height
  {
    Screen(row, height) * math.tan(FovRadians(math) / 2.0)
  }

  /** The aspect ratio is applied to the horizontal axis only: on a square framebuffer both
      axes use the same scale, and a pixel on the diagonal has equal camera coordinates. */
  lemma SquareFramebufferIsSymmetric(i: nat, size: nat, math: MathLib)
    requires i < size
    ensures CameraX(i, size, size, math) == CameraY(i, size, math)
  {
    assert AspectRatio(size, size) == 1.0;
  }

  /** The last column of an image at least two pixels wide lies right of centre. */
  lemma LastColumnRightOfCentre(width: nat)
    requires width >= 2
    ensures Screen(width - 1, width) > 0.0
  {
    var n := width as real;
    var q := Ndc(width - 1, width);
    assert q * n == n - 0.5;
    assert (q - 0.5) * n == 0.5 * n - 0.5;
    assert 0.5 * n - 0.5 > 0.0;
  }

  /** Scaling a positive product by a factor inside (0, 1) keeps it positive and makes it smaller. */
  lemma ShrunkProduct(s: real, a: real, t: real)
    requires s > 0.0 && 0.0 < a < 1.0 && t > 0.0
    ensures 0.0 < s * a * t < s * t
  {
    var st := s * t;
    assert st > 0.0;
    assert s * a * t == a * st;
  }

  /** On a tall image (width < height) the aspect ratio still scales the horizontal axis, so
      it is squeezed below the field of view, while the vertical axis keeps it: the last
      column's camera coordinate has the sign of `screen * tan(fov / 2)` and a strictly
      smaller magnitude.  A policy that scales the narrower axis would leave the horizontal
      coordinate at `screen * tan(fov / 2)` here.  Only `tan(fov / 2) != 0` is needed: the
      program's half-angle 22.5 pi is a pole of tan, so its sign is not known. */
  lemma TallImageSqueezesHorizontal(width: nat, height: nat, math: MathLib)
    requires 2 <= width < height
    requires math.tan(FovRadians(math) / 2.0) != 0.0
    ensures var cx, full := CameraX(width - 1, width, height, math), Screen(width - 1, width) * math.tan(FovRadians(math) / 2.0);
            Abs(cx) < Abs(full) && cx * full > 0.0
  {
    var s, a, t := Screen(width - 1, width), AspectRatio(width, height), math.tan(FovRadians(math) / 2.0);
    LastColumnRightOfCentre(width);
    QuotientInsideUnit(width as real, height as real);
    if t > 0.0 {
      ShrunkProduct(s, a, t);
      assert s * a * t * (s * t) > 0.0;
    } else {
      ShrunkProduct(s, a, -t);
      assert s * a * t == -(s * a * (-t));
      assert s * t == -(s * (-t));
      assert Abs(s * a * t) == s * a * (-t);
      assert Abs(s * t) == s * (-t);
      assert s * a * t * (s * t) == s * a * (-t) * (s * (-t));
    }
    assert CameraX(width - 1, width, height, math) == s * a * t;
  }

  // ---------------------------------------------------------------------------------------
  // Rays and colours
  // ---------------------------------------------------------------------------------------

  /** The ray direction before normalisation.  Orthographic: the point on the image plane
      minus the same point at z = 0.  Any other mode: that point minus the origin. */
  function RawDirection(mode: nat, cx: real, cy: real): Vec3 {
    if mode == RT_ORTHO then Sub(Vec3(cx, cy, -1.0), Vec3(cx, cy, 0.0))
    else Sub(Vec3(cx, cy, -1.0), Zero)
  }

  /** Orthographic rays all point straight down -z, whatever the pixel. */
  lemma OrthoDirectionIsAxis(cx: real, cy: real)
    ensures RawDirection(RT_ORTHO, cx, cy) == Vec3(0.0, 0.0, -1.0)
  {
  }

  /** Perspective rays point at the pixel's place on the image plane z = -1. */
  lemma PerspectiveDirectionThroughPixel(mode: nat, cx: real, cy: real)
    requires mode != RT_ORTHO
    ensures RawDirection(mode, cx, cy) == Vec3(cx, cy, -1.0)
  {
  }

  /** The primary ray through pixel (row, col).  Its origin is the camera origin in both modes. */
  function PrimaryRay(mode: nat, row: nat, col: nat, width: nat, height: nat, math: MathLib): (r: Ray)
    requires row < height && col < width
    ensures r.origin == Zero
  {
    var direction := RawDirection(mode, CameraX(col, width, height, math), CameraY(row, height, math));
    Ray(Zero, math.unit(direction))
  }

  /** `castRay`: the miss colour.  Only the (1, 1, 1) vector is halved, so half a unit is
      added to each component of the direction. */
  function CastRay(ray: Ray): Vec3 {
    Add(ray.direction, Scale(0.5, Vec3(1.0, 1.0, 1.0)))
  }

  /** The colour is the direction shifted by one half in each component; it agrees with the
      remapping `(d + 1) / 2` of [-1, 1] onto [0, 1] exactly when the direction is zero. */
  lemma CastRayShiftsByHalf(ray: Ray)
    ensures CastRay(ray) == Vec3(ray.direction.x + 0.5, ray.direction.y + 0.5, ray.direction.z + 0.5)
    ensures CastRay(ray) == Scale(0.5, Add(ray.direction, Vec3(1.0, 1.0, 1.0))) <==> ray.direction == Zero
  {
  }

  /** The value written to cell (row, col). */
  function PixelValue(mode: nat, row: nat, col: nat, width: nat, height: nat, math: MathLib): Pixel
    requires row < height && col < width
  {
    var c := CastRay(PrimaryRay(mode, row, col, width, height, math));
    Pixel(c.x * 255.0, c.y * 255.0, c.z * 255.0, 1.0)
  }

  /** In orthographic mode every pixel gets the same colour: all rays share origin and
      direction. */
  lemma OrthoPixelsUniform(row: nat, col: nat, row': nat, col': nat, width: nat, height: nat, math: MathLib)
    requires row < height && col < width && row' < height && col' < width
    ensures PixelValue(RT_ORTHO, row, col, width, height, math) == PixelValue(RT_ORTHO, row', col', width, height, math)
  {
    OrthoDirectionIsAxis(CameraX(col, width, height, math), CameraY(row, height, math));
    OrthoDirectionIsAxis(CameraX(col', width, height, math), CameraY(row', height, math));
  }

  // ---------------------------------------------------------------------------------------
  // The raytracer
  // ---------------------------------------------------------------------------------------

  class Raytracer {
    /** The image rendered into: rows along the first dimension, columns along the second. */
    var frameBuffer: array2<Pixel>
    var projectionMode: nat

    /** The constructor: stores the framebuffer; the mode starts orthographic. */
    constructor(newFrameBuffer: array2<Pixel>)
      ensures frameBuffer == newFrameBuffer && projectionMode == RT_ORTHO
    {
      frameBuffer := newFrameBuffer;
      projectionMode := RT_ORTHO;
    }

    /** `getProjectionMode`. */
    method GetProjectionMode() returns (mode: nat)
      ensures mode == projectionMode
    {
      return projectionMode;
    }

    /** `setProjectionOrtho`: only the mode changes. */
    method SetProjectionOrtho()
      modifies this`projectionMode
      ensures projectionMode == RT_ORTHO
    {
      projectionMode := RT_ORTHO;
    }

    /** `setProjectionPerspective`: only the mode changes. */
    method SetProjectionPerspective()
      modifies this`projectionMode
      ensures projectionMode == RT_PERSPECTIVE
    {
      projectionMode := RT_PERSPECTIVE;
    }

    /** One pass of `raytrace`'s loop body, up to the framebuffer write: pixel (row, col)
        mapped to NDC, screen and camera space, the ray built for the current projection
        mode and normalised, and its colour scaled to the RGBA range. */
    method TracePixel(row: nat, col: nat, width: nat, height: nat, math: MathLib) returns (hitColor: Pixel)
      requires row < height && col < width
      ensures hitColor == PixelValue(projectionMode, row, col, width, height, math)
    {
      var colNdc := Ndc(col, width);
      var rowNdc := Ndc(row, height);
      var colScreen := 2.0 * colNdc - 1.0;
      var rowScreen := 2.0 * rowNdc - 1.0;
      var fovRadians := 90.0 * (math.pi / 2.0);
      var aspectRatio := width as real / height as real;
      var colCamera := colScreen * aspectRatio * math.tan(fovRadians / 2.0);
      var rowCamera := rowScreen * math.tan(fovRadians / 2.0);
      assert colCamera == CameraX(col, width, height, math);
      assert rowCamera == CameraY(row, height, math);

      var rayOrigin := Vec3(0.0, 0.0, 0.0);
      var rayDirection := Vec3(0.0, 0.0, 0.0);
      if projectionMode == RT_ORTHO {
        rayDirection := Sub(Vec3(colCamera, rowCamera, -1.0), Vec3(colCamera, rowCamera, 0.0));
      } else {
        rayDirection := Sub(Vec3(colCamera, rowCamera, -1.0), rayOrigin);
      }
      assert rayDirection == RawDirection(projectionMode, colCamera, rowCamera);
      rayDirection := math.unit(rayDirection);

      var ray := Ray(rayOrigin, rayDirection);
      var rayDirectionColor := CastRay(ray);
      hitColor := Pixel(rayDirectionColor.x * 255.0, rayDirectionColor.y * 255.0, rayDirectionColor.z * 255.0, 1.0);
      assert ray == PrimaryRay(projectionMode, row, col, width, height, math);
    }

    /** `raytrace`: every cell of the framebuffer receives the value of its own pixel, which
        depends only on its row and column, the dimensions and the projection mode. */
    method Raytrace(math: MathLib)
      modifies frameBuffer
      ensures forall row, col :: 0 <= row < frameBuffer.Length0 && 0 <= col < frameBuffer.Length1 ==>
        frameBuffer[row, col] == PixelValue(projectionMode, row, col, frameBuffer.Length1, frameBuffer.Length0, math)
    {
      var fb := frameBuffer;
      var height := fb.Length0;
      var width := fb.Length1;
      var row := 0;
      while row < height
        invariant 0 <= row <= height
        invariant forall r, c :: 0 <= r < row && 0 <= c < width ==>
          fb[r, c] == PixelValue(projectionMode, r, c, width, height, math)
      {
        var col := 0;
        while col < width
          invariant 0 <= col <= width
          invariant forall r, c :: 0 <= r < row && 0 <= c < width ==>
            fb[r, c] == PixelValue(projectionMode, r, c, width, height, math)
          invariant forall c :: 0 <= c < col ==>
            fb[row, c] == PixelValue(projectionMode, row, c, width, height, math)
        {
          var hitColor := TracePixel(row, col, width, height, math);
          fb[row, col] := hitColor;
          col := col + 1;
        }
        row := row + 1;
      }
    }
  }
}
