/**
 * The view's playback controller: loop counting through `repeatCount`, the deferred
 * start, start / pause / rewind / stop, the animation-did-stop callback with its one-shot
 * completion, and the layout pass that flips and fits the layer.
 *
 * The view holds its root layer as a value; every write the source makes to the layer
 * (`speed`, `timeOffset`, `beginTime`, `transform`, the flip flags, the re-added animation)
 * replaces `resourceLayer` with the updated tree. The media clock is a parameter.
 */
module Playback {
  import opened Wrappers
  import opened Geometry
  import opened Layers
  import opened Layout
  import opened GliderTypes
  import opened Loading

  const IntMax: int := 0x7fff_ffff_ffff_ffff
  const IntMin: int := -0x8000_0000_0000_0000

  /** Swift's `Int` on a 64-bit platform. */
  type Int = x: int | IntMin <= x <= IntMax

  /** The user's completion closure; a method that invokes it returns it, so the call is observable. */
  datatype Completion = Completion(id: nat)

  /** The layer after `speed = 0` and `timeOffset = 0`. */
  function Rewound(l: Layer): Layer
  {
    l.(speed := 0.0, timeOffset := 0.0)
  }

  /**
   * The layer after `startAnimating()` on a view that is not animating: the animation that
   * finishes last is removed and added back, under its key, as a copy whose delegate is the
   * view; then the layer runs at speed 1 from `now`.
   */
  function Restarted(l: Layer, now: real): Layer
  {
    var armed :=
      match LastAnimationToFinish(l)
      case None => l
      case Some(c) => ReplaceAnimation(l, c.path, c.key, c.animation.(notifiesView := true));
    armed.(speed := 1.0, beginTime := now)
  }

  /** `rewind(andPlay: true)` on a view that is not animating. */
  function Replayed(layer: Option<Layer>, now: real): Option<Layer>
  {
    match layer
    case None => None
    case Some(l) => Some(Restarted(Rewound(l), now))
  }

  /** The layer after the layout pass: every layer flipped, and the content-mode transform set. */
  function LaidOut(l: Layer, mode: ContentMode, bounds: Size): Layer
    requires Measurable(l.bounds)
  {
    FlipGeometry(l).(isGeometryFlipped := true, transform := ContentTransform(mode, bounds, l.bounds))
  }

  /**
   * Starting runs the layer at speed 1 from `now`, leaves its other timing and geometry as
   * they were, and leaves the view as the delegate of the animation that finishes last: its
   * key now names exactly the copy. Every other key, on that layer and on every other layer
   * of the tree, names what it named before.
   */
  lemma {:induction false} RestartedArmsAnchor(l: Layer, now: real, p: seq<nat>, k: string, b: Animation)
    ensures var r := Restarted(l, now);
      r.speed == 1.0 && r.beginTime == now && r.timeOffset == l.timeOffset &&
      r.bounds == l.bounds && r.transform == l.transform && r.isGeometryFlipped == l.isGeometryFlipped &&
      |r.sublayers| == |l.sublayers|
    ensures LastAnimationToFinish(l).Some? ==>
      var c := LastAnimationToFinish(l).value;
      HasAnimation(Restarted(l, now), c.path, c.key, b) <==> b == c.animation.(notifiesView := true)
    ensures LastAnimationToFinish(l).None? ||
            p != LastAnimationToFinish(l).value.path || k != LastAnimationToFinish(l).value.key ==>
      (HasAnimation(Restarted(l, now), p, k, b) <==> HasAnimation(l, p, k, b))
    ensures Bare(Restarted(l, now)) == Bare(l).(speed := 1.0, beginTime := now)
  {
    match LastAnimationToFinish(l)
    case None =>
      assert HasAnimation(l.(speed := 1.0, beginTime := now), p, k, b) == HasAnimation(l, p, k, b);
    case Some(c) =>
      ReplaceKeepsBare(l, c.path, c.key, c.animation.(notifiesView := true));
      LastAnimationToFinishPresent(l);
      HasAnimationValidPath(l, c.path, c.key, c.animation);
      var copy := c.animation.(notifiesView := true);
      var armed := ReplaceAnimation(l, c.path, c.key, copy);
      ReplaceAnimationInstalls(l, c.path, c.key, copy, b, c.key);
      assert HasAnimation(armed.(speed := 1.0, beginTime := now), c.path, c.key, b) == HasAnimation(armed, c.path, c.key, b);
      assert HasAnimation(armed.(speed := 1.0, beginTime := now), p, k, b) == HasAnimation(armed, p, k, b);
      if p != c.path {
        ReplaceAnimationElsewhere(l, c.path, c.key, copy, p, k, b);
      } else if k != c.key {
        ReplaceAnimationInstalls(l, c.path, c.key, copy, b, k);
      }
  }

  /** A start keeps a flipped tree flipped: a deferred start after layout leaves every layer flipped. */
  lemma {:induction false} RestartedKeepsFlipped(l: Layer, now: real)
    requires AllFlipped(l)
    ensures AllFlipped(Restarted(l, now))
  {
    RestartedArmsAnchor(l, now, [], "", Animation(0.0, 0.0, false));
    BareKeepsFlipped(l);
    BareKeepsFlipped(Restarted(l, now));
  }

  /** The layout pass flips every layer, sets the content-mode transform, and changes nothing else. */
  lemma {:induction false} LaidOutFlipsAndFits(l: Layer, mode: ContentMode, bounds: Size)
    requires Measurable(l.bounds)
    ensures AllFlipped(LaidOut(l, mode, bounds))
    ensures LaidOut(l, mode, bounds).transform == ContentTransform(mode, bounds, l.bounds)
    ensures Unflipped(LaidOut(l, mode, bounds)) == Unflipped(l).(transform := ContentTransform(mode, bounds, l.bounds))
  {
    FlipGeometryFlipsAll(l);
    FlipGeometryOnlyFlags(l);
    var f := FlipGeometry(l);
    assert Unflipped(f.(isGeometryFlipped := true, transform := ContentTransform(mode, bounds, l.bounds))) ==
           Unflipped(f).(transform := ContentTransform(mode, bounds, l.bounds));
  }

  class GliderView {
    var resource: Option<GliderResource>
    var completion: Option<Completion>
    var repeatCount: Int
    var isAnimating: bool
    var resourceLayer: Option<Layer>
    var repeatCurrentCount: Int
    var startAnimatingWhenResourceLoads: bool
    /** The view's bounds and content mode, which UIKit sets. */
    var bounds: Size
    var contentMode: ContentMode

    /** `isAnimating` is only ever assigned `false`, and the loop counter never goes below 0. */
    ghost predicate Valid()
      reads this
    {
      !isAnimating && repeatCurrentCount >= 0
    }

    /** The stored properties' initial values; a new UIView has zero bounds and `.scaleToFill`. */
    constructor ()
      ensures Valid()
      ensures resource == None && completion == None && repeatCount == 1 && resourceLayer == None
      ensures repeatCurrentCount == 0 && !startAnimatingWhenResourceLoads
      ensures bounds == Size(0.0, 0.0) && contentMode == ScaleToFill
    {
      resource := None;
      completion := None;
      repeatCount := 1;
      isAnimating := false;
      resourceLayer := None;
      repeatCurrentCount := 0;
      startAnimatingWhenResourceLoads := false;
      bounds := Size(0.0, 0.0);
      contentMode := ScaleToFill;
    }

    /** The `loops` getter: looping forever is encoded as `repeatCount == Int.max`. */
    function Loops(): bool
      reads this
    {
      repeatCount == IntMax
    }

    /** The `loops` setter; reading `loops` afterwards gives back the value set. */
    method SetLoops(newValue: bool)
      modifies this`repeatCount
      ensures repeatCount == (if newValue then IntMax else 0)
      ensures Loops() == newValue
    {
      repeatCount := if newValue then IntMax else 0;
    }

    /**
     * `startAnimating()`: with no layer yet, only asks for a start once the layer loads;
     * otherwise, unless already animating, re-arms the last animation and restarts the layer.
     */
    method StartAnimating(now: real)
      modifies this`resourceLayer, this`startAnimatingWhenResourceLoads
      ensures old(resourceLayer).None? ==> resourceLayer == None && startAnimatingWhenResourceLoads
      ensures old(resourceLayer).Some? ==> startAnimatingWhenResourceLoads == old(startAnimatingWhenResourceLoads)
      ensures old(resourceLayer).Some? && isAnimating ==> resourceLayer == old(resourceLayer)
      ensures old(resourceLayer).Some? && !isAnimating ==> resourceLayer == Some(Restarted(old(resourceLayer).value, now))
    {
      if resourceLayer.None? {
        startAnimatingWhenResourceLoads := true;
        return;
      }
      if isAnimating {
        return;
      }
      var rLayer := resourceLayer.value;
      var last := FindLastAnimationToFinish(rLayer);
      if last.Some? {
        var copy := last.value.animation.(notifiesView := true);
        rLayer := ReplaceAnimation(rLayer, last.value.path, last.value.key, copy);
      }
      resourceLayer := Some(rLayer.(speed := 1.0, beginTime := now));
    }

    /** `rewind(andPlay:)`: back to time 0 and stopped; then started again when `andPlay`. */
    method Rewind(andPlay: bool, now: real)
      requires Valid()
      modifies this`resourceLayer, this`startAnimatingWhenResourceLoads
      ensures Valid()
      ensures !andPlay ==>
        resourceLayer == (if old(resourceLayer).None? then None else Some(Rewound(old(resourceLayer).value))) &&
        startAnimatingWhenResourceLoads == old(startAnimatingWhenResourceLoads)
      ensures andPlay ==>
        resourceLayer == Replayed(old(resourceLayer), now) &&
        startAnimatingWhenResourceLoads == (old(startAnimatingWhenResourceLoads) || old(resourceLayer).None?)
    {
      if resourceLayer.Some? {
        resourceLayer := Some(Rewound(resourceLayer.value));
      }
      if andPlay {
        StartAnimating(now);
      }
    }

    /**
     * `pause()`: stops the layer's clock and freezes it at `layerTime`, the value
     * `convertTime(CACurrentMediaTime(), from: nil)` gives at that point. Both layer writes
     * are optional-chained, so with no layer only `isAnimating` is cleared: the
     * force-unwrap on the right of the second write is never evaluated then.
     */
    method Pause(layerTime: real)
      modifies this`isAnimating, this`resourceLayer
      ensures !isAnimating
      ensures resourceLayer ==
        (if old(resourceLayer).None? then None
         else Some(old(resourceLayer).value.(speed := 0.0, timeOffset := layerTime)))
    {
      isAnimating := false;
      if resourceLayer.Some? {
        resourceLayer := Some(resourceLayer.value.(speed := 0.0));
        resourceLayer := Some(resourceLayer.value.(timeOffset := layerTime));
      }
    }

    /** `stopAnimating()`: resets the loop counter, cancels a deferred start, and rewinds without playing. */
    method StopAnimating()
      modifies this`isAnimating, this`repeatCurrentCount, this`startAnimatingWhenResourceLoads, this`resourceLayer
      ensures Valid()
      ensures repeatCurrentCount == 0 && !startAnimatingWhenResourceLoads
      ensures resourceLayer == (if old(resourceLayer).None? then None else Some(Rewound(old(resourceLayer).value)))
    {
      isAnimating := false;
      repeatCurrentCount := 0;
      startAnimatingWhenResourceLoads := false;
      Rewind(false, 0.0);
    }

    /**
     * `animationDidStop(_:finished:)`: every stop counts. A finished stop that reaches
     * `repeatCount` invokes the completion once and clears it; one below `repeatCount`
     * plays again from the start; an interrupted stop does neither. The source's
     * `repeatCurrentCount += 1` traps on overflow, so the counter must be below `Int.max`.
     */
    method AnimationDidStop(finished: bool, now: real) returns (fired: Option<Completion>)
      requires Valid() && repeatCurrentCount < IntMax
      modifies this`isAnimating, this`repeatCurrentCount, this`completion, this`resourceLayer,
               this`startAnimatingWhenResourceLoads
      ensures Valid()
      ensures repeatCurrentCount == old(repeatCurrentCount) + 1
      ensures var done := finished && repeatCount == repeatCurrentCount;
        fired == (if done then old(completion) else None) &&
        completion == (if done then None else old(completion))
      ensures var again := finished && repeatCount > repeatCurrentCount;
        resourceLayer == (if again then Replayed(old(resourceLayer), now) else old(resourceLayer)) &&
        startAnimatingWhenResourceLoads == (old(startAnimatingWhenResourceLoads) || (again && old(resourceLayer).None?))
    {
      isAnimating := false;
      repeatCurrentCount := repeatCurrentCount + 1;
      fired := None;
      if finished {
        if repeatCount == repeatCurrentCount {
          fired := completion;
          completion := None;
        } else if repeatCount > repeatCurrentCount {
          Rewind(true, now);
        }
      }
    }

    /**
     * `layoutResourceLayer()`: with a layer, flips its geometry, fits it by the content mode,
     * and then consumes a deferred start, if one was asked for, by starting.
     */
    method LayoutResourceLayer(now: real)
      requires Valid()
      requires resourceLayer.Some? ==> Measurable(resourceLayer.value.bounds)
      modifies this`resourceLayer, this`startAnimatingWhenResourceLoads
      ensures Valid()
      ensures old(resourceLayer).None? ==>
        resourceLayer == None && startAnimatingWhenResourceLoads == old(startAnimatingWhenResourceLoads)
      ensures old(resourceLayer).Some? ==>
        var laid := LaidOut(old(resourceLayer).value, contentMode, bounds);
        !startAnimatingWhenResourceLoads &&
        resourceLayer == Some(if old(startAnimatingWhenResourceLoads) then Restarted(laid, now) else laid)
    ensures old(resourceLayer).Some? ==> resourceLayer.Some? && AllFlipped(resourceLayer.value)
    {
      if resourceLayer.None? {
        return;
      }
      LaidOutFlipsAndFits(resourceLayer.value, contentMode, bounds);
      RestartedKeepsFlipped(LaidOut(resourceLayer.value, contentMode, bounds), now);
      var rLayer := FlipGeometry(resourceLayer.value);
      rLayer := rLayer.(isGeometryFlipped := true);
      rLayer := rLayer.(transform := ContentTransform(contentMode, bounds, rLayer.bounds));
      resourceLayer := Some(rLayer);
      if startAnimatingWhenResourceLoads {
        startAnimatingWhenResourceLoads := false;
        StartAnimating(now);
      }
    }

    /**
     * Setting `resource`: the current layer is dropped, and `drawResource()` loads the new
     * resource. The layer stays absent when there is no resource or its load fails.
     */
    method ResourceChanged(newResource: Option<GliderResource>, env: Environment, now: real)
      requires Valid()
      requires newResource.Some? && newResource.value.Outcome(env).Success? ==>
        Measurable(newResource.value.Outcome(env).layer.bounds)
      modifies this`resource, this`resourceLayer, this`startAnimatingWhenResourceLoads
      ensures Valid()
      ensures resource == newResource
      ensures newResource.None? || newResource.value.Outcome(env).Error? ==>
        resourceLayer == None && startAnimatingWhenResourceLoads == old(startAnimatingWhenResourceLoads)
      ensures newResource.Some? && newResource.value.Outcome(env).Success? ==>
        var laid := LaidOut(newResource.value.Outcome(env).layer, contentMode, bounds);
        !startAnimatingWhenResourceLoads &&
        resourceLayer == Some(if old(startAnimatingWhenResourceLoads) then Restarted(laid, now) else laid)
    {
      resource := newResource;
      resourceLayer := None;
      DrawResource(env, now);
    }

    /**
     * `drawResource()`: with a resource, loads it and hands each delivered result to the
     * completion, which is `ResourceDidLoad`; with none, does nothing.
     */
    method DrawResource(env: Environment, now: real)
      requires Valid()
      requires resource.Some? && resource.value.Outcome(env).Success? ==>
        Measurable(resource.value.Outcome(env).layer.bounds)
      modifies this`resourceLayer, this`startAnimatingWhenResourceLoads
      ensures Valid()
      ensures resource.None? || resource.value.Outcome(env).Error? ==>
        resourceLayer == old(resourceLayer) && startAnimatingWhenResourceLoads == old(startAnimatingWhenResourceLoads)
      ensures resource.Some? && resource.value.Outcome(env).Success? ==>
        var laid := LaidOut(resource.value.Outcome(env).layer, contentMode, bounds);
        !startAnimatingWhenResourceLoads &&
        resourceLayer == Some(if old(startAnimatingWhenResourceLoads) then Restarted(laid, now) else laid)
    {
      if resource.None? {
        return;
      }
      var delivered := resource.value.Load(env);
      ResourceDidLoad(delivered[0], now);
    }

    /** The completion `drawResource()` passes to `load`: a delivered layer is adopted and laid out; an error is ignored. */
    method ResourceDidLoad(result: GliderLoadResult, now: real)
      requires Valid()
      requires result.Success? ==> Measurable(result.layer.bounds)
      modifies this`resourceLayer, this`startAnimatingWhenResourceLoads
      ensures Valid()
      ensures result.Error? ==>
        resourceLayer == old(resourceLayer) && startAnimatingWhenResourceLoads == old(startAnimatingWhenResourceLoads)
      ensures result.Success? ==>
        var laid := LaidOut(result.layer, contentMode, bounds);
        !startAnimatingWhenResourceLoads &&
        resourceLayer == Some(if old(startAnimatingWhenResourceLoads) then Restarted(laid, now) else laid)
    {
      match result
      case Success(layer) =>
        resourceLayer := Some(layer);
        LayoutResourceLayer(now);
      case Error(_) =>
    }
  }
}
