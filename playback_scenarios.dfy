/**
 * Call sequences on a fresh view, and what the playback controller's contracts say they
 * lead to: the completion's one-shot behaviour, looping forever, interrupted stops, a
 * zero repeat count, and the deferred start.
 */
module PlaybackScenarios {
  import opened Wrappers
  import opened Geometry
  import opened Layers
  import opened Layout
  import opened GliderTypes
  import opened Loading
  import opened Playback

  /**
   * With `repeatCount == 3`, three finished stops invoke the completion on the third; after
   * `stopAnimating()` resets the counter, three more finished stops invoke nothing, because
   * the completion was cleared when it fired.
   */
  method CompletionFiresOnce(c: Completion, now: real) returns (fired: seq<Option<Completion>>)
    ensures fired == [None, None, Some(c), None, None, None]
  {
    var v := new GliderView();
    v.completion := Some(c);
    v.repeatCount := 3;
    var f1 := v.AnimationDidStop(true, now);
    assert f1 == None && v.completion == Some(c) && v.repeatCurrentCount == 1 && v.resourceLayer == None;
    var f2 := v.AnimationDidStop(true, now);
    assert f2 == None && v.completion == Some(c) && v.repeatCurrentCount == 2 && v.resourceLayer == None;
    var f3 := v.AnimationDidStop(true, now);
    assert f3 == Some(c) && v.completion == None;
    v.StopAnimating();
    var f4 := v.AnimationDidStop(true, now);
    var f5 := v.AnimationDidStop(true, now);
    var f6 := v.AnimationDidStop(true, now);
    fired := [f1, f2, f3, f4, f5, f6];
  }

  /**
   * With `loops = true`, any number of finished stops below `Int.max` invokes nothing: the
   * completion stays pending and every stop is counted.
   */
  method LoopingNeverCompletes(c: Completion, n: nat, now: real) returns (fired: seq<Option<Completion>>, counted: int)
    requires n < IntMax
    ensures |fired| == n && forall j :: 0 <= j < n ==> fired[j] == None
    ensures counted == n
  {
    var v := new GliderView();
    v.completion := Some(c);
    v.SetLoops(true);
    fired := [];
    var i := 0;
    while i < n
      invariant 0 <= i <= n
      invariant v.Valid() && v.repeatCount == IntMax && v.repeatCurrentCount == i && v.completion == Some(c)
      invariant |fired| == i && forall j :: 0 <= j < i ==> fired[j] == None
    {
      var f := v.AnimationDidStop(true, now);
      fired := fired + [f];
      i := i + 1;
    }
    counted := v.repeatCurrentCount;
  }

  /**
   * An interrupted stop is counted too. With `repeatCount == 1`, an interrupted stop followed
   * by a finished one leaves the counter at 2, past the repeat count, so the completion never
   * fires and playback does not resume.
   */
  method InterruptedStopCounts(c: Completion, now: real)
    returns (first: Option<Completion>, second: Option<Completion>, counted: int, pending: Option<Completion>)
    ensures first == None && second == None && counted == 2 && pending == Some(c)
  {
    var v := new GliderView();
    v.completion := Some(c);
    first := v.AnimationDidStop(false, now);
    second := v.AnimationDidStop(true, now);
    counted := v.repeatCurrentCount;
    pending := v.completion;
  }

  /** `loops = false` sets `repeatCount` to 0: a finished stop then never completes, and the counter passes the repeat count. */
  method NotLoopingMeansZeroRepeats(c: Completion, now: real) returns (fired: Option<Completion>, repeats: int, counted: int)
    ensures fired == None && repeats == 0 && counted == 1
  {
    var v := new GliderView();
    v.completion := Some(c);
    v.SetLoops(false);
    fired := v.AnimationDidStop(true, now);
    repeats := v.repeatCount;
    counted := v.repeatCurrentCount;
  }

  /**
   * `startAnimating()` before the layer has loaded is deferred: the load's layout pass starts
   * the layer at the time of that pass, and a later layout pass does not start it again.
   */
  method DeferredStartRunsOnce(layer: Layer, requested: real, loaded: real, relaidOut: real)
    returns (afterLoad: Layer, afterRelayout: Layer)
    requires Measurable(layer.bounds)
    ensures afterLoad.speed == 1.0 && afterLoad.beginTime == loaded
    ensures afterRelayout.speed == 1.0 && afterRelayout.beginTime == loaded
  {
    var v := new GliderView();
    v.StartAnimating(requested);
    v.ResourceDidLoad(Success(layer), loaded);
    afterLoad := v.resourceLayer.value;
    RestartedArmsAnchor(LaidOut(layer, v.contentMode, v.bounds), loaded, [], "", Animation(0.0, 0.0, false));
    assert afterLoad.bounds == layer.bounds;
    v.LayoutResourceLayer(relaidOut);
    afterRelayout := v.resourceLayer.value;
  }

  /** `pause()` before any layer has loaded is safe: it only clears `isAnimating`. */
  method PauseBeforeLoad(layerTime: real) returns (layer: Option<Layer>, animating: bool)
    ensures layer == None && !animating
  {
    var v := new GliderView();
    v.Pause(layerTime);
    layer := v.resourceLayer;
    animating := v.isAnimating;
  }

  /**
   * Setting a resource whose load fails drops the layer the view was showing, and no layer
   * takes its place.
   */
  method FailedResourceClearsLayer(shown: Layer, kind: GliderResourceType, env: Environment, now: real)
    returns (before: Option<Layer>, after: Option<Layer>)
    requires Measurable(shown.bounds)
    requires LoadOutcome(kind, env).Error?
    ensures before.Some? && after == None
  {
    var v := new GliderView();
    v.ResourceDidLoad(Success(shown), now);
    before := v.resourceLayer;
    var r := new GliderResource(kind);
    v.ResourceChanged(Some(r), env, now);
    after := v.resourceLayer;
  }
}
