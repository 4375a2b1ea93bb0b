# Glider playback and loading, modelled in Dafny

Glider plays a pre-authored Core Animation archive inside a view. This project models two parts of it:

- `GliderView`: the playback controller and its layout math.
- `GliderResource`: the loader that fetches and decodes the archive.

The model follows the branches, constants and error cases of the Swift code, and proves what those branches promise.

- `wrappers.dfy`: `Option` and `Result`.
- `geometry.dfy`: sizes, points and the affine part of `CATransform3D` that the view builds (`MakeScale`, `MakeTranslation`, `Concat`).
- `layers.dfy`: the layer tree as a value. It holds the two recursive helpers the view adds to `CALayer`:
  - `flipGeometry`;
  - `lastAnimationToFinish`, with `finishTime`.

  The search is specified as a fold (`Scan`) over the candidates in the order the source compares them: own keys in key order, then each sublayer's answer. A recursive method with the source's two loops (the first in its own method `OwnLatest`) is proved equal to that fold.
- `layout.dfy`: `UIView.ContentMode` and the transform `layoutResourceLayer` gives each mode, with `transform(for:contentSize:)`.
- `glider_types.dfy`: `GliderError` (five cases, two with payloads), `GliderResourceType` (four variants, one payload each) and `GliderLoadResult` (success with a layer, or error), from `Sources/GliderTypes.swift`. The completion type `(GliderLoadResult) -> ()` becomes the `delivered` sequence that each load method returns. That sequence lists the results the completion was called with, in order.
- `playback.dfy`: the `GliderView` class. Its fields are:
  - `repeatCount`, `repeatCurrentCount` and `isAnimating`;
  - `startAnimatingWhenResourceLoads` (the pending-start flag);
  - `completion` (the one-shot slot);
  - `resourceLayer`;
  - the bounds and content mode that UIKit sets.

  Its methods are `startAnimating`, `rewind(andPlay:)`, `pause`, `stopAnimating`, `animationDidStop(_:finished:)`, `layoutResourceLayer`, the `loops` property, the `resource` setter and `drawResource` with its completion.
- `playback_scenarios.dfy`: call sequences on a fresh view, with the outcome each one is proved to have.
- `loading.dfy`: the `GliderResource` class. It has `load`, `load(with:)`, `loadData`, `loadLocalResource`, `loadRemoteResource` and `handleData`. Each is a guard chain that calls the completion and returns, and each is proved against `LoadOutcome`. `LoadOutcome` is a reference function that maps each abstract fetch outcome to its result.

The view's counters `repeatCount` and `repeatCurrentCount`, Swift `Int`s, are kept as a subset type with the 64-bit range, so `Int.max` is 9223372036854775807. HTTP status codes are unbounded integers: nothing computes with them. `CGFloat` and `CFTimeInterval` are exact reals. `CACurrentMediaTime()` is the `now` parameter. The value of `convertTime(_:from:)` inside `pause` is the `layerTime` parameter.

Several behaviours of the code are easy to misread. The model follows the code:

- `data` is never assigned, so nothing is cached and every `load` fetches again.
- Concurrent loads are not deduplicated.
- `animationDidStop` counts every stop, interrupted or not. An interrupted stop can therefore push the counter past `repeatCount`, and then the completion never fires (`InterruptedStopCounts`).
- `repeatCurrentCount <= repeatCount` is not an invariant. `loops = false` sets `repeatCount` to 0, and the first stop moves the counter to 1.
- `isAnimating` is never set to true. So `startAnimating` is not idempotent: each call re-arms the last animation and restarts the clock.
- The layer sizes are not checked for zero. The model requires positive sizes where the source divides by them.
- `pause` with no layer is safe. Both layer writes are optional-chained, so the force-unwrap on the right of the second one is never evaluated when the layer is nil, and only `isAnimating` is cleared (`PauseBeforeLoad`).
- Setting a resource whose load fails leaves the view with no layer: the old one is dropped first (`FailedResourceClearsLayer`).

## Model

| member | source | states |
|---|---|---|
| Geometry.ConcatComposes | Sources/GliderView.swift:128-135 | The concatenation `transform(for:)` builds moves every point the way the scale and then the translation would. |
| Layers.RemoveAnimation | Sources/GliderView.swift:150 | After removing a key, the layer holds exactly its other keyed animations, and never more than before. |
| Layers.RemoveAnimationKeepsOrder | Sources/GliderView.swift:150 | Removing a key from two runs laid end to end removes it from each, so the other keys keep their relative order. |
| Layers.RemoveAnimationAbsentKey | Sources/GliderView.swift:150 | Removing a key that no animation is stored under leaves the key list as it is. |
| Layers.ReplaceAnimation | Sources/GliderView.swift:148-153 | Removal of the key, then re-adding the copy at the end of the key order, on the layer the path reaches. Its properties are `ReplaceAnimationInstalls` and `ReplaceAnimationElsewhere`. |
| Layers.ReplaceAnimationInstalls | Sources/GliderView.swift:148-153 | After removal and re-adding on the layer a valid path reaches, the key names the copy and nothing else. Every other key names what it named before. |
| Layers.ReplaceAnimationElsewhere | Sources/GliderView.swift:148-153 | The re-arm touches only the addressed layer. On every other layer of the tree, each key names what it named before. |
| Layers.ReplaceKeepsBare | Sources/GliderView.swift:148-153 | Removing and re-adding an animation changes no layer's other fields and not the tree's shape. |
| Layers.BareKeepsFlipped | Sources/GliderView.swift:199-202 | Whether every layer is flipped depends only on the tree without its animations. |
| Layers.FlipGeometry | Sources/GliderView.swift:199-202 | `flipGeometry` on the layer value: sets the flag here and recurses into every sublayer. Its properties are the four `FlipGeometry*` lemmas. |
| Layers.FlipGeometryFlipsAll | Sources/GliderView.swift:199-202 | After `flipGeometry`, every layer in the subtree has `isGeometryFlipped` set. |
| Layers.FlipGeometryKeepsFlipped | Sources/GliderView.swift:199-202 | On a fully flipped tree, `flipGeometry` changes nothing. |
| Layers.FlipGeometryIdempotent | Sources/GliderView.swift:199-202 | Flipping twice gives the same tree as flipping once. |
| Layers.FlipGeometryOnlyFlags | Sources/GliderView.swift:199-202 | Flipping changes only the flags: tree shape and every other field stay the same. |
| Layers.FindLastAnimationToFinish | Sources/GliderView.swift:204-238 | The own-key loop (`OwnLatest`), then the sublayer loop with its recursive calls, compute exactly the fold `LastAnimationToFinish`. |
| Layers.OwnLatest | Sources/GliderView.swift:205-218 | The loop over the layer's own keys leaves the latest finish time and its animation exactly as the fold over the own candidates does. |
| Layers.Animation.FinishTime | Sources/GliderView.swift:242-244 | `finishTime`: the animation's begin time plus its duration, on the clock of its layer. The search adds the layer's `beginTime` to it. |
| Layers.LastAnimationToFinish | Sources/GliderView.swift:204-238 | The search as a fold over own keys, then each sublayer's answer. Its properties are the `LastAnimationToFinish*` lemmas and `ScanIsFirstLatest`. |
| Layers.ScanIsFirstLatest | Sources/GliderView.swift:205-228 | The strict `>` search from 0 returns the first candidate with the greatest time, and that time is positive. It returns nothing iff no candidate's time is above 0. |
| Layers.LastAnimationToFinishPresent | Sources/GliderView.swift:204-238 | The returned (layer path, key) really holds the returned animation in the subtree. |
| Layers.LastAnimationToFinishIsLatest | Sources/GliderView.swift:204-244 | With this layer's `beginTime` added, the answer's finish time (begin + duration) is above 0. It is no earlier than every own animation and every sublayer's answer. |
| Layers.LastAnimationToFinishNone | Sources/GliderView.swift:204-238 | The search returns nil iff no own animation and no sublayer answer finishes after 0, measured with this layer's `beginTime`. |
| Layers.LastAnimationToFinishKeepsFirst | Sources/GliderView.swift:210-228 | Ties keep the first candidate found, own keys before sublayers. Every earlier candidate finishes strictly earlier. |
| Layout.UniformTransformCentered | Sources/GliderView.swift:128-135 | `transform(for:contentSize:)` scales both axes by the ratio and leaves equal margins on opposite sides. |
| Layout.UniformTransform | Sources/GliderView.swift:128-135 | `transform(for:contentSize:)`: scale by the ratio, then translate by half the leftover width and height. |
| Layout.ContentTransform | Sources/GliderView.swift:94-120 | The transform each content mode gets: translation for `.center`, a non-uniform scale for `.scaleToFill`, the max ratio for `.scaleAspectFill`, the min ratio for everything else. |
| Layout.CenterKeepsSize | Sources/GliderView.swift:101-104 | `.center` does not scale and centres the content at its own size. |
| Layout.ScaleToFillStretches | Sources/GliderView.swift:105-108 | `.scaleToFill` does not translate and maps the content's width and height exactly onto the bounds. |
| Layout.AspectFitFits | Sources/GliderView.swift:112-119 | Aspect-fit, and every unsupported mode, uses one scale for both axes. The content fits inside the bounds, matches them in one dimension, and is centred. |
| Layout.AspectFitIsLargest | Sources/GliderView.swift:97-119 | Aspect-fit's ratio (the min of the two) is the largest uniform scale under which the content fits. |
| Layout.AspectFillCovers | Sources/GliderView.swift:109-111 | Aspect-fill uses one scale. The content covers the bounds, matches them in one dimension, and is centred. |
| Layout.AspectFillIsSmallest | Sources/GliderView.swift:97-111 | Aspect-fill's ratio (the max of the two) is the smallest uniform scale under which the content covers the bounds. |
| Playback.RestartedArmsAnchor | Sources/GliderView.swift:148-156 | A start leaves speed 1 and `beginTime` = now, with the other root fields unchanged. The last animation's key then names exactly its copy with the view as delegate. Every other key, on that layer and every other layer, names what it named before. The bare tree (every layer's timing, flags, transform, bounds, and the shape) is unchanged apart from the root's speed and `beginTime`. |
| Playback.RestartedKeepsFlipped | Sources/GliderView.swift:122-125 | A start on a fully flipped tree leaves it fully flipped, so a deferred start after layout keeps every layer flipped. |
| Playback.Rewound | Sources/GliderView.swift:159-161 | The layer after speed 0 and time offset 0. |
| Playback.Restarted | Sources/GliderView.swift:138-157 | The layer after a start on a non-animating view. `RestartedArmsAnchor` states what changes and what does not. |
| Playback.Replayed | Sources/GliderView.swift:159-166 | `rewind(andPlay: true)` on a non-animating view: rewound, then restarted. No layer stays no layer. |
| Playback.LaidOut | Sources/GliderView.swift:84-120 | The layer after the layout pass. `LaidOutFlipsAndFits` states what it changes. |
| Playback.LaidOutFlipsAndFits | Sources/GliderView.swift:89-120 | The layout pass flips every layer and sets the content-mode transform. It changes nothing else. |
| Playback.GliderView.constructor | Sources/GliderView.swift:12-28 | Initial state: no completion, `repeatCount` 1, counter 0, no pending start, no layer, not animating. |
| Playback.GliderView.SetLoops | Sources/GliderView.swift:14-21 | Setting `loops` makes `repeatCount` `Int.max` or 0. Reading `loops` returns the value set. |
| Playback.GliderView.Loops | Sources/GliderView.swift:14-17 | The `loops` getter: true iff `repeatCount` is `Int.max`. |
| Playback.GliderView.StartAnimating | Sources/GliderView.swift:138-157 | With no layer, only the pending flag is set. With a layer and not animating, the layer becomes `Restarted(layer, now)`. |
| Playback.GliderView.Rewind | Sources/GliderView.swift:159-166 | Speed and time offset go to 0, then a start follows iff `andPlay`. A start without a layer sets the pending flag. |
| Playback.GliderView.Pause | Sources/GliderView.swift:168-172 | Clears `isAnimating`. With a layer, sets its speed to 0 and its time offset to the converted time. With no layer, leaves the layer absent. |
| Playback.GliderView.StopAnimating | Sources/GliderView.swift:174-179 | Counter 0, pending flag cleared, and a rewind without play. |
| Playback.GliderView.AnimationDidStop | Sources/GliderView.swift:183-195 | The counter rises by exactly 1 whatever `finished` is. A finished stop that reaches `repeatCount` returns the completion and clears it. One below `repeatCount` replays. Otherwise nothing else changes. |
| Playback.GliderView.LayoutResourceLayer | Sources/GliderView.swift:84-126 | With no layer, nothing changes and the flag is not consumed. With a layer, it is flipped and fitted, and the pending flag is cleared and turned into one start. Either way every layer of the result is flipped. |
| Playback.GliderView.ResourceChanged | Sources/GliderView.swift:4-10 | Setting the resource stores it, drops the current layer, and draws the new one. With no resource or a failed load, no layer is left. With a successful load, the decoded layer is laid out and a pending start is honoured. |
| Playback.GliderView.DrawResource | Sources/GliderView.swift:66-81 | With no resource or a failed load, nothing changes. Otherwise the load's one result is the decoded layer, which is adopted, laid out and, if a start was pending, started. |
| Playback.GliderView.ResourceDidLoad | Sources/GliderView.swift:72-81 | A delivered layer is adopted and laid out, honouring a pending start. An error changes nothing. |
| PlaybackScenarios.CompletionFiresOnce | Sources/GliderView.swift:183-195 | With `repeatCount` 3, the completion fires on the third finished stop. After `stopAnimating`, three more finished stops fire nothing. |
| PlaybackScenarios.LoopingNeverCompletes | Sources/GliderView.swift:14-21 | With `loops = true`, n finished stops (n < `Int.max`) fire nothing, and all n are counted. |
| PlaybackScenarios.InterruptedStopCounts | Sources/GliderView.swift:183-195 | An interrupted stop is counted. With `repeatCount` 1, a later finished stop neither completes nor replays. |
| PlaybackScenarios.NotLoopingMeansZeroRepeats | Sources/GliderView.swift:18-20 | `loops = false` gives `repeatCount` 0. A finished stop then fires nothing and the counter reaches 1. |
| PlaybackScenarios.DeferredStartRunsOnce | Sources/GliderView.swift:122-125 | A start requested before loading runs at the load's layout pass. A later layout pass does not restart. |
| PlaybackScenarios.PauseBeforeLoad | Sources/GliderView.swift:168-172 | `pause()` on a view with no layer leaves no layer and not animating. |
| PlaybackScenarios.FailedResourceClearsLayer | Sources/GliderView.swift:4-10 | A shown layer is dropped when a resource whose load fails is set, and no layer replaces it. |
| Loading.Decoded | Sources/GliderResource.swift:106-120 | Decoding gives `badFormat` iff the decoder fails, and otherwise success with the decoded layer. |
| Loading.RemoteBytes | Sources/GliderResource.swift:80-103 | The data task closure's checks, as a value: error, then HTTP status, then missing body, else the bytes. Its properties are `RemoteChecksInOrder` and `StatusBoundary`. |
| Loading.FetchedBytes | Sources/GliderResource.swift:48-100 | The bytes each of the four kinds yields, or the error its fetch is reported as. |
| Loading.LoadOutcome | Sources/GliderResource.swift:48-120 | The one result a load of each kind delivers: the fetch error, or the decoded bytes. The classification lemmas below state which error comes from where. |
| Loading.NotFoundOnlyFromBundle | Sources/GliderResource.swift:66-70 | `localResourceNotFound` comes only from a bundle resource whose `.caar` file is missing. |
| Loading.BadFormatOnlyFromDecoding | Sources/GliderResource.swift:106-114 | `badFormat` comes only from bytes that were fetched and then failed to decode. |
| Loading.EmptyDataSources | Sources/GliderResource.swift:48-100 | `emptyOrInvalidData` comes only from an unreadable bundle file, a missing data asset, or a remote reply without a body. |
| Loading.SuccessOnlyFromDecodedBytes | Sources/GliderResource.swift:48-120 | A load succeeds iff bytes were fetched and decoded, and it delivers the decoded layer. |
| Loading.ReadyDecodesDirectly | Sources/GliderResource.swift:61-62 | In-memory bytes go straight to decoding, with no fetch. |
| Loading.RemoteChecksInOrder | Sources/GliderResource.swift:80-103 | A transport error wins. Then a non-2xx HTTP status gives its code, and a non-HTTP reply skips that check. Then a missing body. Then decoding. |
| Loading.StatusBoundary | Sources/GliderResource.swift:88-94 | Statuses 199 and 300 are refused with their code. 200 and 299 pass. |
| Loading.ToLegacyReply | Sources/GliderResource.swift:37-46 | `load(with:)` sends success as (layer, nil) and error as (nil, error). Exactly one side is present, and the result can be read back. |
| Loading.GliderResource.constructor | Sources/GliderResource.swift:18-26 | A new resource keeps its kind and has no data available. |
| Loading.GliderResource.IsDataAvailable | Sources/GliderResource.swift:24-26 | `isDataAvailable`: true iff bytes are held. The constructor makes it false and no method sets `data`. |
| Loading.GliderResource.Outcome | Sources/GliderResource.swift:28-35 | What `load` delivers: the held bytes decoded, or `LoadOutcome` of the kind. |
| Loading.GliderResource.Load | Sources/GliderResource.swift:28-35 | Exactly one result is delivered: the decoded held bytes if there are any, otherwise the fetch's outcome. |
| Loading.GliderResource.LoadWith | Sources/GliderResource.swift:37-46 | Exactly one pair is delivered, the forwarded form of `load`'s one result. |
| Loading.GliderResource.LoadData | Sources/GliderResource.swift:48-64 | An exhaustive dispatch on the four kinds. A missing data asset gives `emptyOrInvalidData` without decoding. Exactly one result. |
| Loading.GliderResource.LoadLocalResource | Sources/GliderResource.swift:66-78 | Missing file gives `localResourceNotFound`. Unreadable file gives `emptyOrInvalidData`. Otherwise the decoded bytes. Exactly one result. |
| Loading.GliderResource.LoadRemoteResource | Sources/GliderResource.swift:80-104 | The data task's closure delivers exactly the outcome of the ordered remote checks, once. |
| Loading.GliderResource.HandleData | Sources/GliderResource.swift:106-120 | Delivers `badFormat` or the decoded layer, once. |
| Loading.LoadingTwiceFetchesTwice | Sources/GliderResource.swift:22-35 | Nothing is cached: a second load of the same resource reflects its own fetch. |
| Loading.MissingBundleFile | Sources/GliderResource.swift:66-70 | A bundle resource with a missing file delivers `localResourceNotFound`, once. |

## Left out

- Core Animation and UIKit plumbing is not modelled: `addSublayer`, `removeFromSuperlayer`, `masksToBounds`, `clipsToBounds`, `invalidateIntrinsicContentSize`, `layoutSubviews`, `intrinsicContentSize` and the initializers other than the stored properties' defaults. These are view plumbing with nothing to state.
- `CALayer` is a reference type that the source mutates in place. The model treats each layer as a value and replaces the view's root layer with the updated tree. Aliasing of layers between owners is not captured.
- The order of `animationKeys()` is assumed to be insertion order, so a removed and re-added key moves to the end. Core Animation does not document this.
- The full 4x4 `CATransform3D` and the layer's anchor point are not modelled. Only the x/y scale and translation the view builds are kept.
- Real I/O is replaced by the `Environment` inputs: `Bundle.main.url`, `Data(contentsOf:)`, `NSDataAsset` and `URLSession.dataTask`.
- `NSKeyedUnarchiver` decoding in `rootLayer(from:)` is the uninterpreted `decode` input. It is a foreign archive format.
- The two dispatch queues are concurrency and are not modelled. A completion is delivered directly, as one entry in `delivered`.
- Floating point is exact `real`. Rounding and the infinities a zero layer size would give are not modelled. A positive layer size is required instead.
- Playback.GliderView.Pause: `layerTime` is taken as given. In the source it is `convertTime(CACurrentMediaTime(), from: nil)`, computed after the speed was already set to 0. How Core Animation derives that value from the layer's timing is not modelled.
- Diagnostic `print` calls, the unused `autoreverses` property and the Objective-C attributes are not modelled.
- The completion closure is not modelled as running code. `AnimationDidStop` returns it, so the call is visible, but a closure that calls back into the view is not.
- Playback.GliderView.AnimationDidStop: requires the counter to be below `Int.max`. The source's `repeatCurrentCount += 1` traps on overflow; the model makes that trap a precondition instead of modelling the crash.
- Playback.GliderView.DrawResource: the load's completion is applied before the method returns. In the source the result arrives later, on the main queue, so calls that reach the view between the setter and the delivery are not interleaved in the model.
- `GliderView.init(resource:)` is not modelled. It stores the resource and calls `drawResource()` again.
- The convenience initializers `init(url:)`, `init(resourceNameInBundle:)` and `init(assetName:)` are not modelled. Each only picks a `GliderResourceType` case for the modelled constructor.
