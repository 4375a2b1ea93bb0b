/**
 * How the view fits its layer's size into its own bounds for each content mode
 * (`layoutResourceLayer` and `transform(for:contentSize:)`).
 */
module Layout {
  import opened Geometry

  /** UIKit's `UIView.ContentMode`. */
  datatype ContentMode =
    | ScaleToFill | ScaleAspectFit | ScaleAspectFill | Redraw | Center
    | Top | Bottom | Left | Right | TopLeft | TopRight | BottomLeft | BottomRight

  /** The modes the view lays out as aspect-fit: aspect-fit itself and every mode it does not support. */
  predicate FitsAsAspectFit(mode: ContentMode)
  {
    !mode.Center? && !mode.ScaleToFill? && !mode.ScaleAspectFill?
  }

  /** The view's arithmetic divides by the layer's width and height. */
  predicate Measurable(content: Size)
  {
    content.width > 0.0 && content.height > 0.0
  }

  function Min(a: real, b: real): real
  {
    if a <= b then a else b
  }

  function Max(a: real, b: real): real
  {
    if a >= b then a else b
  }

  /** `transform(for: ratio, contentSize:)`: scale by `ratio`, then move the scaled content to the middle of the bounds. */
  function UniformTransform(ratio: real, content: Size, bounds: Size): Transform
  {
    Concat(MakeScale(ratio, ratio),
           MakeTranslation((bounds.width - content.width * ratio) / 2.0,
                           (bounds.height - content.height * ratio) / 2.0))
  }

  /** The transform `layoutResourceLayer` gives a layer of size `content` in a view with `bounds`. */
  function ContentTransform(mode: ContentMode, bounds: Size, content: Size): Transform
    requires Measurable(content)
  {
    var aspectWidth := bounds.width / content.width;
    var aspectHeight := bounds.height / content.height;
    match mode
    case Center =>
      MakeTranslation((bounds.width - content.width) / 2.0, (bounds.height - content.height) / 2.0)
    case ScaleToFill =>
      MakeScale(bounds.width / content.width, bounds.height / content.height)
    case ScaleAspectFill =>
      UniformTransform(Max(aspectWidth, aspectHeight), content, bounds)
    case _ =>
      UniformTransform(Min(aspectWidth, aspectHeight), content, bounds)
  }

  // ---------------------------------------------------------------------------
  // What a transform does to the content's box [0, w] x [0, h]
  // ---------------------------------------------------------------------------

  /** The content's box, once transformed, leaves equal margins left and right, and top and bottom. */
  predicate Centered(t: Transform, content: Size, bounds: Size)
  {
    var near := Apply(t, Point(0.0, 0.0));
    var far := Apply(t, Point(content.width, content.height));
    near.x == bounds.width - far.x && near.y == bounds.height - far.y
  }

  /** The transformed content is no wider and no taller than the bounds. */
  predicate FitsInside(t: Transform, content: Size, bounds: Size)
  {
    content.width * t.sx <= bounds.width && content.height * t.sy <= bounds.height
  }

  /** The transformed content is at least as wide and as tall as the bounds. */
  predicate Covers(t: Transform, content: Size, bounds: Size)
  {
    content.width * t.sx >= bounds.width && content.height * t.sy >= bounds.height
  }

  /** The transformed content matches the bounds exactly in width or in height. */
  predicate Touches(t: Transform, content: Size, bounds: Size)
  {
    content.width * t.sx == bounds.width || content.height * t.sy == bounds.height
  }

  lemma MulDiv(a: real, b: real)
    requires a > 0.0
    ensures a * (b / a) == b
  {
  }

  lemma MulMono(a: real, x: real, y: real)
    requires a > 0.0 && x <= y
    ensures a * x <= a * y
  {
  }

  /** A uniform transform built by `transform(for:contentSize:)` keeps the content centred. */
  lemma UniformTransformCentered(ratio: real, content: Size, bounds: Size)
    ensures var t := UniformTransform(ratio, content, bounds);
      t.sx == ratio && t.sy == ratio && Centered(t, content, bounds)
  {
    var t := UniformTransform(ratio, content, bounds);
    assert t == Transform(ratio, ratio, (bounds.width - content.width * ratio) / 2.0,
                          (bounds.height - content.height * ratio) / 2.0);
  }

  /** `.center`: no scaling, the content is centred at its own size. */
  lemma CenterKeepsSize(bounds: Size, content: Size)
    requires Measurable(content)
    ensures var t := ContentTransform(Center, bounds, content);
      t.sx == 1.0 && t.sy == 1.0 && Centered(t, content, bounds)
  {
  }

  /** `.scaleToFill`: the content is stretched onto the bounds exactly, without moving. */
  lemma {:induction false} ScaleToFillStretches(bounds: Size, content: Size)
    requires Measurable(content)
    ensures var t := ContentTransform(ScaleToFill, bounds, content);
      t.tx == 0.0 && t.ty == 0.0 &&
      content.width * t.sx == bounds.width && content.height * t.sy == bounds.height
  {
    MulDiv(content.width, bounds.width);
    MulDiv(content.height, bounds.height);
  }

  /**
   * `.scaleAspectFit` and every unsupported mode: one scale for both axes, the content fits
   * inside the bounds, matches them in one dimension, and is centred.
   */
  lemma {:induction false} AspectFitFits(mode: ContentMode, bounds: Size, content: Size)
    requires Measurable(content) && FitsAsAspectFit(mode)
    ensures var t := ContentTransform(mode, bounds, content);
      t.sx == t.sy && FitsInside(t, content, bounds) && Touches(t, content, bounds) && Centered(t, content, bounds)
  {
    var aw := bounds.width / content.width;
    var ah := bounds.height / content.height;
    var r := Min(aw, ah);
    assert ContentTransform(mode, bounds, content) == UniformTransform(r, content, bounds);
    UniformTransformCentered(r, content, bounds);
    MulDiv(content.width, bounds.width);
    MulDiv(content.height, bounds.height);
    MulMono(content.width, r, aw);
    MulMono(content.height, r, ah);
  }

  /** Aspect-fit uses the largest single scale under which the content still fits. */
  lemma {:induction false} AspectFitIsLargest(mode: ContentMode, bounds: Size, content: Size, ratio: real)
    requires Measurable(content) && FitsAsAspectFit(mode)
    requires content.width * ratio <= bounds.width && content.height * ratio <= bounds.height
    ensures ratio <= ContentTransform(mode, bounds, content).sx
  {
    var aw := bounds.width / content.width;
    var ah := bounds.height / content.height;
    assert ContentTransform(mode, bounds, content) == UniformTransform(Min(aw, ah), content, bounds);
    DivMono(content.width, ratio, bounds.width);
    DivMono(content.height, ratio, bounds.height);
  }

  lemma DivMono(a: real, x: real, y: real)
    requires a > 0.0 && a * x <= y
    ensures x <= y / a
  {
    MulDiv(a, y);
    if x > y / a {
      MulMono(a, y / a, x);
    }
  }

  lemma DivMonoUp(a: real, x: real, y: real)
    requires a > 0.0 && a * x >= y
    ensures x >= y / a
  {
    MulDiv(a, y);
    if x < y / a {
      MulMono(a, x, y / a);
    }
  }

  /**
   * `.scaleAspectFill`: one scale for both axes, the content covers the bounds, matches
   * them in one dimension, and is centred.
   */
  lemma {:induction false} AspectFillCovers(bounds: Size, content: Size)
    requires Measurable(content)
    ensures var t := ContentTransform(ScaleAspectFill, bounds, content);
      t.sx == t.sy && Covers(t, content, bounds) && Touches(t, content, bounds) && Centered(t, content, bounds)
  {
    var aw := bounds.width / content.width;
    var ah := bounds.height / content.height;
    var r := Max(aw, ah);
    UniformTransformCentered(r, content, bounds);
    MulDiv(content.width, bounds.width);
    MulDiv(content.height, bounds.height);
    MulMono(content.width, aw, r);
    MulMono(content.height, ah, r);
  }

  /** Aspect-fill uses the smallest single scale under which the content still covers the bounds. */
  lemma {:induction false} AspectFillIsSmallest(bounds: Size, content: Size, ratio: real)
    requires Measurable(content)
    requires content.width * ratio >= bounds.width && content.height * ratio >= bounds.height
    ensures ratio >= ContentTransform(ScaleAspectFill, bounds, content).sx
  {
    DivMonoUp(content.width, ratio, bounds.width);
    DivMonoUp(content.height, ratio, bounds.height);
  }
}
