/** The value types the editor's views take from Swift, CoreGraphics and SwiftUI.
    CGFloat is modelled as `real`: positions, sizes and widths are exact, with no
    rounding, overflow, NaN or infinity. */
module Platform {

  /** Swift's `Optional`. */
  datatype Option<T> = None | Some(value: T)

  /** A `CGPoint` in some coordinate space (the canvas's, or the photo's). */
  datatype Point = Point(x: real, y: real)
  {
    /** `self.applying(CGAffineTransform(scaleX: s, y: s))`: a uniform scale about the origin. */
    function Scaled(s: real): (r: Point)
      ensures s == 1.0 ==> r == this
      ensures s != 0.0 ==> Point(r.x * (1.0 / s), r.y * (1.0 / s)) == this
      ensures this == Point(0.0, 0.0) ==> r == this
    {
      assert s != 0.0 ==> x * s * (1.0 / s) == x && y * s * (1.0 / s) == y;
      Point(x * s, y * s)
    }
  }

  /** A `CGSize`; it is also the type of a drag gesture's translation. */
  datatype Size = Size(width: real, height: real)

  /** `CGSize.zero`. */
  const Zero: Size := Size(0.0, 0.0)

  /** A SwiftUI `Color`: the two named colours the editor uses, and any other colour the
      colour picker can produce, as red, green, blue and alpha components. */
  datatype Color = Black | Cyan | Rgba(red: real, green: real, blue: real, alpha: real)

  /** `Color(cgColor: CGColor(gray: 0, alpha: 0))`: fully transparent. */
  const Transparent: Color := Rgba(0.0, 0.0, 0.0, 0.0)
}
