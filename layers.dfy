/**
 * The layer tree the view drives, and the two recursive helpers the view adds to it
 * (`flipGeometry` and `lastAnimationToFinish`, with the animation's `finishTime`).
 *
 * A layer is a value: an update of a layer "in place" is modelled by building the
 * updated tree. A layer's animations are kept in the order `animationKeys()` lists
 * them, which is the order they were added in.
 */
module Layers {
  import opened Wrappers
  import opened Geometry

  /** A timed animation attached to a layer; `notifiesView` says the view is its delegate. */
  datatype Animation = Animation(beginTime: real, duration: real, notifiesView: bool)
  {
    /** When the animation ends, on the clock of the layer it is attached to. */
    function FinishTime(): real
    {
      beginTime + duration
    }
  }

  /** An animation together with the key it was added under. */
  datatype Keyed = Keyed(key: string, animation: Animation)

  datatype Layer = Layer(
    bounds: Size,
    beginTime: real,
    speed: real,
    timeOffset: real,
    isGeometryFlipped: bool,
    transform: Transform,
    animations: seq<Keyed>,
    sublayers: seq<Layer>)

  // ---------------------------------------------------------------------------
  // Addressing animations in a tree
  // ---------------------------------------------------------------------------

  /** `path` lists sublayer indices from `l` down to an existing layer. */
  predicate ValidPath(l: Layer, path: seq<nat>)
    decreases path
  {
    path == [] || (path[0] < |l.sublayers| && ValidPath(l.sublayers[path[0]], path[1..]))
  }

  /** The layer reached from `l` by `path` holds `a` under `key`. */
  predicate HasAnimation(l: Layer, path: seq<nat>, key: string, a: Animation)
    decreases path
  {
    if path == [] then Keyed(key, a) in l.animations
    else path[0] < |l.sublayers| && HasAnimation(l.sublayers[path[0]], path[1..], key, a)
  }

  lemma {:induction false} HasAnimationValidPath(l: Layer, path: seq<nat>, key: string, a: Animation)
    requires HasAnimation(l, path, key, a)
    ensures ValidPath(l, path)
    decreases path
  {
    if path != [] {
      HasAnimationValidPath(l.sublayers[path[0]], path[1..], key, a);
    }
  }

  /** `removeAnimation(forKey:)`: drops the animations stored under `key`, keeping the order of the rest. */
  function RemoveAnimation(anims: seq<Keyed>, key: string): (r: seq<Keyed>)
    ensures forall k :: k in r <==> k in anims && k.key != key
    ensures |r| <= |anims|
  {
    if anims == [] then []
    else (if anims[0].key == key then [] else [anims[0]]) + RemoveAnimation(anims[1..], key)
  }

  /** Removing a key the list does not hold leaves the list as it is. */
  lemma {:induction false} RemoveAnimationAbsentKey(anims: seq<Keyed>, key: string)
    requires forall k :: k in anims ==> k.key != key
    ensures RemoveAnimation(anims, key) == anims
    decreases |anims|
  {
    if anims != [] {
      assert anims[0] in anims;
      RemoveAnimationAbsentKey(anims[1..], key);
      assert [anims[0]] + anims[1..] == anims;
    }
  }

  /**
   * Removal works piece by piece: removing from two runs of keys laid end to end is
   * removing from each, so the keys that stay keep their relative order.
   */
  lemma {:induction false} RemoveAnimationKeepsOrder(front: seq<Keyed>, back: seq<Keyed>, key: string)
    ensures RemoveAnimation(front + back, key) == RemoveAnimation(front, key) + RemoveAnimation(back, key)
    decreases |front|
  {
    if front == [] {
      assert front + back == back;
    } else {
      assert (front + back)[1..] == front[1..] + back;
      RemoveAnimationKeepsOrder(front[1..], back, key);
    }
  }

  /**
   * `removeAnimation(forKey: key)` followed by `add(a, forKey: key)` on the layer that
   * `path` reaches: the new animation goes to the end of that layer's key order.
   */
  function ReplaceAnimation(l: Layer, path: seq<nat>, key: string, a: Animation): Layer
    decreases path
  {
    if path == [] then
      l.(animations := RemoveAnimation(l.animations, key) + [Keyed(key, a)])
    else if path[0] < |l.sublayers| then
      l.(sublayers := l.sublayers[path[0] := ReplaceAnimation(l.sublayers[path[0]], path[1..], key, a)])
    else
      l
  }

  /**
   * After the replacement, `key` on the addressed layer names the new animation and only
   * it, and every other key of that layer names what it named before.
   */
  lemma {:induction false} ReplaceAnimationInstalls(l: Layer, path: seq<nat>, key: string, a: Animation, b: Animation, other: string)
    requires ValidPath(l, path)
    ensures HasAnimation(ReplaceAnimation(l, path, key, a), path, key, b) <==> b == a
    ensures other != key ==>
      (HasAnimation(ReplaceAnimation(l, path, key, a), path, other, b) <==> HasAnimation(l, path, other, b))
    decreases path
  {
    if path == [] {
      var r := RemoveAnimation(l.animations, key);
      assert Keyed(key, b) in r + [Keyed(key, a)] <==> b == a;
      assert other != key ==> (Keyed(other, b) in r + [Keyed(key, a)] <==> Keyed(other, b) in l.animations);
    } else {
      var i := path[0];
      ReplaceAnimationInstalls(l.sublayers[i], path[1..], key, a, b, other);
    }
  }

  /**
   * The replacement touches only the layer `path` addresses: on every other layer of the
   * tree, each key names what it named before.
   */
  lemma {:induction false} ReplaceAnimationElsewhere(l: Layer, path: seq<nat>, key: string, a: Animation,
                                                     p: seq<nat>, k: string, b: Animation)
    requires p != path
    ensures HasAnimation(ReplaceAnimation(l, path, key, a), p, k, b) <==> HasAnimation(l, p, k, b)
    decreases path
  {
    var r := ReplaceAnimation(l, path, key, a);
    if path == [] {
      assert r.sublayers == l.sublayers;
    } else if path[0] < |l.sublayers| {
      if p == [] {
        assert r.animations == l.animations;
      } else if p[0] != path[0] {
        assert p[0] < |r.sublayers| ==> r.sublayers[p[0]] == l.sublayers[p[0]];
      } else {
        assert p[1..] != path[1..];
        ReplaceAnimationElsewhere(l.sublayers[path[0]], path[1..], key, a, p[1..], k, b);
      }
    }
  }

  /** The tree with every animation dropped: its shape, timing, flags, transforms and bounds. */
  function Bare(l: Layer): Layer
    decreases l
  {
    l.(animations := [],
       sublayers := seq(|l.sublayers|, i requires 0 <= i < |l.sublayers| => Bare(l.sublayers[i])))
  }

  /** The replacement changes animations only: no layer's other fields, and not the tree's shape. */
  lemma {:induction false} ReplaceKeepsBare(l: Layer, path: seq<nat>, key: string, a: Animation)
    ensures Bare(ReplaceAnimation(l, path, key, a)) == Bare(l)
    decreases path
  {
    var r := ReplaceAnimation(l, path, key, a);
    if path != [] && path[0] < |l.sublayers| {
      var i := path[0];
      ReplaceKeepsBare(l.sublayers[i], path[1..], key, a);
      assert forall j :: 0 <= j < |l.sublayers| ==> Bare(r.sublayers[j]) == Bare(l.sublayers[j]);
      assert Bare(r).sublayers == Bare(l).sublayers;
    }
  }

  /** Whether every layer is flipped depends on the bare tree only. */
  lemma {:induction false} BareKeepsFlipped(l: Layer)
    ensures AllFlipped(Bare(l)) == AllFlipped(l)
    decreases l
  {
    forall i | 0 <= i < |l.sublayers| ensures AllFlipped(Bare(l).sublayers[i]) == AllFlipped(l.sublayers[i]) {
      BareKeepsFlipped(l.sublayers[i]);
    }
  }

  // ---------------------------------------------------------------------------
  // flipGeometry
  // ---------------------------------------------------------------------------

  /** `flipGeometry`: sets `isGeometryFlipped` on the layer and, recursively, on every sublayer. */
  function FlipGeometry(l: Layer): Layer
    decreases l
  {
    l.(isGeometryFlipped := true,
       sublayers := seq(|l.sublayers|, i requires 0 <= i < |l.sublayers| => FlipGeometry(l.sublayers[i])))
  }

  /** Every layer of the tree has its geometry flipped. */
  predicate AllFlipped(l: Layer)
    decreases l
  {
    l.isGeometryFlipped && forall i :: 0 <= i < |l.sublayers| ==> AllFlipped(l.sublayers[i])
  }

  /** The tree with every flip flag cleared: what is left when the flags are ignored. */
  function Unflipped(l: Layer): Layer
    decreases l
  {
    l.(isGeometryFlipped := false,
       sublayers := seq(|l.sublayers|, i requires 0 <= i < |l.sublayers| => Unflipped(l.sublayers[i])))
  }

  lemma {:induction false} FlipGeometryFlipsAll(l: Layer)
    ensures AllFlipped(FlipGeometry(l))
    decreases l
  {
    forall i | 0 <= i < |l.sublayers| ensures AllFlipped(FlipGeometry(l).sublayers[i]) {
      FlipGeometryFlipsAll(l.sublayers[i]);
    }
  }

  /** On a tree that is already flipped, `flipGeometry` changes nothing. */
  lemma {:induction false} FlipGeometryKeepsFlipped(l: Layer)
    requires AllFlipped(l)
    ensures FlipGeometry(l) == l
    decreases l
  {
    forall i | 0 <= i < |l.sublayers| ensures FlipGeometry(l).sublayers[i] == l.sublayers[i] {
      FlipGeometryKeepsFlipped(l.sublayers[i]);
    }
    assert FlipGeometry(l).sublayers == l.sublayers;
  }

  lemma {:induction false} FlipGeometryIdempotent(l: Layer)
    ensures FlipGeometry(FlipGeometry(l)) == FlipGeometry(l)
  {
    FlipGeometryFlipsAll(l);
    FlipGeometryKeepsFlipped(FlipGeometry(l));
  }

  /** `flipGeometry` changes the flags and nothing else: not the shape, not any other field. */
  lemma {:induction false} FlipGeometryOnlyFlags(l: Layer)
    ensures Unflipped(FlipGeometry(l)) == Unflipped(l)
    decreases l
  {
    forall i | 0 <= i < |l.sublayers| ensures Unflipped(FlipGeometry(l)).sublayers[i] == Unflipped(l).sublayers[i] {
      FlipGeometryOnlyFlags(l.sublayers[i]);
    }
    assert Unflipped(FlipGeometry(l)).sublayers == Unflipped(l).sublayers;
  }

  // ---------------------------------------------------------------------------
  // lastAnimationToFinish
  // ---------------------------------------------------------------------------

  /** A found animation, the path to the layer that holds it, and its key. */
  datatype Candidate = Candidate(animation: Animation, path: seq<nat>, key: string)

  /** The accumulators of the search: the latest finish time so far and its animation. */
  datatype Best = Best(finishTime: real, found: Option<Candidate>)

  /** The time the search compares: the searching layer's `beginTime` plus the animation's finish time. */
  function Reach(base: real, c: Candidate): real
  {
    base + c.animation.FinishTime()
  }

  /** One comparison of the search: a candidate replaces the best so far only if it finishes strictly later. */
  function Step(base: real, acc: Best, c: Candidate): Best
  {
    if Reach(base, c) > acc.finishTime then Best(Reach(base, c), Some(c)) else acc
  }

  /** The search over a list of candidates in order, starting from finish time 0 and no animation. */
  function Scan(base: real, cs: seq<Candidate>): Best
  {
    if cs == [] then Best(0.0, None) else Step(base, Scan(base, cs[..|cs| - 1]), cs[|cs| - 1])
  }

  /** The layer's own animations, in key order, as candidates on the layer itself. */
  function OwnCandidates(anims: seq<Keyed>): seq<Candidate>
  {
    seq(|anims|, i requires 0 <= i < |anims| => Candidate(anims[i].animation, [], anims[i].key))
  }

  /** A sublayer's answer, re-addressed from the parent through sublayer index `i`. */
  function Lift(i: nat, d: Candidate): Candidate
  {
    d.(path := [i] + d.path)
  }

  function Lifted(i: nat, r: Option<Candidate>): seq<Candidate>
  {
    match r
    case None => []
    case Some(d) => [Lift(i, d)]
  }

  /** The answers of the first `k` sublayers, in order, skipping those that found nothing. */
  function SubCandidates(l: Layer, k: nat): seq<Candidate>
    requires k <= |l.sublayers|
    decreases l, k
  {
    if k == 0 then [] else SubCandidates(l, k - 1) + Lifted(k - 1, LastAnimationToFinish(l.sublayers[k - 1]))
  }

  /** Everything the search of `l` compares, in the order it compares them: own keys first, then sublayers. */
  function Candidates(l: Layer): seq<Candidate>
    decreases l, |l.sublayers| + 1
  {
    OwnCandidates(l.animations) + SubCandidates(l, |l.sublayers|)
  }

  /** `lastAnimationToFinish`, as the fold of `Step` over `Candidates(l)`. */
  function LastAnimationToFinish(l: Layer): Option<Candidate>
    decreases l, |l.sublayers| + 2
  {
    Scan(l.beginTime, Candidates(l)).found
  }

  /**
   * The search itself: the loop over the layer's own keys (`OwnLatest`), then the loop over
   * its sublayers, each keeping the latest finish time seen so far.
   */
  method FindLastAnimationToFinish(l: Layer) returns (r: Option<Candidate>)
    ensures r == LastAnimationToFinish(l)
    decreases l, 1
  {
    ghost var own := OwnCandidates(l.animations);
    var lastFinishTime, last := OwnLatest(l);
    FoldStartsWithOwn(l);

    var i := 0;
    while i < |l.sublayers|
      invariant 0 <= i <= |l.sublayers|
      invariant Best(lastFinishTime, last) == Scan(l.beginTime, own + SubCandidates(l, i))
    {
      var sub := FindLastAnimationToFinish(l.sublayers[i]);
      SublayerPass(l, own, i, sub, Best(lastFinishTime, last));
      if sub.Some? && l.beginTime + sub.value.animation.FinishTime() > lastFinishTime {
        lastFinishTime := l.beginTime + sub.value.animation.FinishTime();
        last := Some(Lift(i, sub.value));
      }
      i := i + 1;
    }
    FoldIsSearch(l, Best(lastFinishTime, last));
    r := last;
  }

  /** Before the sublayer loop, the fold has seen the own keys only. */
  lemma FoldStartsWithOwn(l: Layer)
    ensures OwnCandidates(l.animations) + SubCandidates(l, 0) == OwnCandidates(l.animations)
  {
  }

  /** After the sublayer loop, the fold has seen every candidate, and its answer is the search's. */
  lemma FoldIsSearch(l: Layer, acc: Best)
    requires acc == Scan(l.beginTime, OwnCandidates(l.animations) + SubCandidates(l, |l.sublayers|))
    ensures acc.found == LastAnimationToFinish(l)
  {
  }

  /** The search's first loop, over the layer's own keys in key order. */
  method OwnLatest(l: Layer) returns (lastFinishTime: real, last: Option<Candidate>)
    ensures Best(lastFinishTime, last) == Scan(l.beginTime, OwnCandidates(l.animations))
    decreases l, 0
  {
    lastFinishTime := 0.0;
    last := None;
    var own := OwnCandidates(l.animations);
    var k := 0;
    while k < |own|
      invariant 0 <= k <= |own|
      invariant Best(lastFinishTime, last) == Scan(l.beginTime, own[..k])
    {
      var c := own[k];
      ScanPrefixStep(l.beginTime, own, k, Best(lastFinishTime, last));
      if l.beginTime + c.animation.FinishTime() > lastFinishTime {
        lastFinishTime := l.beginTime + c.animation.FinishTime();
        last := Some(c);
      }
      k := k + 1;
    }
    assert own[..k] == own;
  }

  /** Folding one more element onto a list is one more `Step`. */
  lemma ScanSnoc(base: real, cs: seq<Candidate>, c: Candidate)
    ensures Scan(base, cs + [c]) == Step(base, Scan(base, cs), c)
  {
    assert (cs + [c])[..|cs|] == cs;
  }

  /** One pass of the own-key loop: the fold over one more prefix element is one more `Step`. */
  lemma ScanPrefixStep(base: real, cs: seq<Candidate>, k: nat, acc: Best)
    requires k < |cs|
    requires acc == Scan(base, cs[..k])
    ensures Scan(base, cs[..k + 1]) ==
      if base + cs[k].animation.FinishTime() > acc.finishTime
      then Best(base + cs[k].animation.FinishTime(), Some(cs[k]))
      else acc
  {
    assert cs[..k + 1] == cs[..k] + [cs[k]];
    ScanSnoc(base, cs[..k], cs[k]);
  }

  /** The sublayer loop's update, written as the source writes it, is one pass of the fold. */
  lemma SublayerPass(l: Layer, own: seq<Candidate>, i: nat, sub: Option<Candidate>, acc: Best)
    requires i < |l.sublayers|
    requires sub == LastAnimationToFinish(l.sublayers[i])
    requires acc == Scan(l.beginTime, own + SubCandidates(l, i))
    ensures Scan(l.beginTime, own + SubCandidates(l, i + 1)) ==
      if sub.Some? && l.beginTime + sub.value.animation.FinishTime() > acc.finishTime
      then Best(l.beginTime + sub.value.animation.FinishTime(), Some(Lift(i, sub.value)))
      else acc
  {
    ScanThroughSublayer(l, own, i);
  }

  /** One pass of the sublayer loop: the fold either takes the sublayer's lifted answer or skips it. */
  lemma ScanThroughSublayer(l: Layer, own: seq<Candidate>, i: nat)
    requires i < |l.sublayers|
    ensures Scan(l.beginTime, own + SubCandidates(l, i + 1)) ==
      match LastAnimationToFinish(l.sublayers[i])
      case None => Scan(l.beginTime, own + SubCandidates(l, i))
      case Some(d) => Step(l.beginTime, Scan(l.beginTime, own + SubCandidates(l, i)), Lift(i, d))
  {
    var cs := own + SubCandidates(l, i);
    assert own + SubCandidates(l, i + 1) == cs + Lifted(i, LastAnimationToFinish(l.sublayers[i]));
    if LastAnimationToFinish(l.sublayers[i]).Some? {
      ScanSnoc(l.beginTime, cs, Lift(i, LastAnimationToFinish(l.sublayers[i]).value));
    } else {
      assert cs + [] == cs;
    }
  }

  /**
   * The fold returns the first candidate with the strictly greatest reach, provided that
   * reach is positive, and nothing when no candidate reaches past 0.
   */
  lemma {:induction false} ScanIsFirstLatest(base: real, cs: seq<Candidate>)
    ensures Scan(base, cs).finishTime >= 0.0
    ensures forall j :: 0 <= j < |cs| ==> Reach(base, cs[j]) <= Scan(base, cs).finishTime
    ensures Scan(base, cs).found.None? <==> forall j :: 0 <= j < |cs| ==> Reach(base, cs[j]) <= 0.0
    ensures Scan(base, cs).found.None? ==> Scan(base, cs).finishTime == 0.0
    ensures Scan(base, cs).found.Some? ==>
      Scan(base, cs).finishTime == Reach(base, Scan(base, cs).found.value) > 0.0 &&
      exists i :: 0 <= i < |cs| && cs[i] == Scan(base, cs).found.value &&
        forall j :: 0 <= j < i ==> Reach(base, cs[j]) < Reach(base, cs[i])
  {
    if cs != [] {
      var init := cs[..|cs| - 1];
      var c := cs[|cs| - 1];
      ScanIsFirstLatest(base, init);
      var prev := Scan(base, init);
      assert forall j :: 0 <= j < |init| ==> cs[j] == init[j];
      if Reach(base, c) > prev.finishTime {
        assert cs[|cs| - 1] == c;
      } else if prev.found.Some? {
        var i :| 0 <= i < |init| && init[i] == prev.found.value &&
          forall j :: 0 <= j < i ==> Reach(base, init[j]) < Reach(base, init[i]);
        assert cs[i] == prev.found.value;
      }
    }
  }

  lemma {:induction false} OwnCandidatesAt(anims: seq<Keyed>, j: nat)
    requires j < |anims|
    ensures OwnCandidates(anims)[j] == Candidate(anims[j].animation, [], anims[j].key)
  {
  }

  /** Every sublayer answer appears among the candidates, re-addressed through its index. */
  lemma {:induction false} SubCandidatesComplete(l: Layer, k: nat, i: nat)
    requires i < k <= |l.sublayers|
    requires LastAnimationToFinish(l.sublayers[i]).Some?
    ensures Lift(i, LastAnimationToFinish(l.sublayers[i]).value) in SubCandidates(l, k)
    decreases k
  {
    if i < k - 1 {
      SubCandidatesComplete(l, k - 1, i);
    }
  }

  /** Every candidate from the sublayers is some sublayer's answer, re-addressed through its index. */
  lemma {:induction false} SubCandidatesSound(l: Layer, k: nat, c: Candidate)
    requires k <= |l.sublayers|
    requires c in SubCandidates(l, k)
    ensures exists i :: (0 <= i < k && LastAnimationToFinish(l.sublayers[i]).Some? &&
                         c == Lift(i, LastAnimationToFinish(l.sublayers[i]).value))
    decreases k
  {
    if c in SubCandidates(l, k - 1) {
      SubCandidatesSound(l, k - 1, c);
    } else {
      assert c in Lifted(k - 1, LastAnimationToFinish(l.sublayers[k - 1]));
    }
  }

  /** The answer names an animation that is really in the tree, at the path and key it gives. */
  lemma {:induction false} LastAnimationToFinishPresent(l: Layer)
    ensures LastAnimationToFinish(l).Some? ==>
      HasAnimation(l, LastAnimationToFinish(l).value.path, LastAnimationToFinish(l).value.key,
                   LastAnimationToFinish(l).value.animation)
    decreases l
  {
    var cs := Candidates(l);
    ScanIsFirstLatest(l.beginTime, cs);
    if LastAnimationToFinish(l).Some? {
      var c := LastAnimationToFinish(l).value;
      var own := OwnCandidates(l.animations);
      var idx :| 0 <= idx < |cs| && cs[idx] == c;
      if idx < |own| {
        OwnCandidatesAt(l.animations, idx);
        assert l.animations[idx] == Keyed(c.key, c.animation);
      } else {
        assert c in SubCandidates(l, |l.sublayers|);
        SubCandidatesSound(l, |l.sublayers|, c);
        var i :| 0 <= i < |l.sublayers| && LastAnimationToFinish(l.sublayers[i]).Some? &&
          c == Lift(i, LastAnimationToFinish(l.sublayers[i]).value);
        LastAnimationToFinishPresent(l.sublayers[i]);
        var d := LastAnimationToFinish(l.sublayers[i]).value;
        assert c.path[0] == i && c.path[1..] == d.path;
      }
    }
  }

  /**
   * The answer, measured with this layer's `beginTime`, finishes no earlier than any own
   * animation and any sublayer's answer, and finishes after time 0.
   */
  lemma {:induction false} LastAnimationToFinishIsLatest(l: Layer)
    ensures LastAnimationToFinish(l).Some? ==>
      var c := LastAnimationToFinish(l).value;
      Reach(l.beginTime, c) > 0.0 &&
      (forall j :: 0 <= j < |l.animations| ==>
         l.beginTime + l.animations[j].animation.FinishTime() <= Reach(l.beginTime, c)) &&
      (forall i :: 0 <= i < |l.sublayers| && LastAnimationToFinish(l.sublayers[i]).Some? ==>
         Reach(l.beginTime, LastAnimationToFinish(l.sublayers[i]).value) <= Reach(l.beginTime, c))
  {
    var cs := Candidates(l);
    var own := OwnCandidates(l.animations);
    ScanIsFirstLatest(l.beginTime, cs);
    if LastAnimationToFinish(l).Some? {
      forall j | 0 <= j < |l.animations|
        ensures l.beginTime + l.animations[j].animation.FinishTime() <= Reach(l.beginTime, LastAnimationToFinish(l).value)
      {
        OwnCandidatesAt(l.animations, j);
        assert cs[j] == own[j];
      }
      forall i | 0 <= i < |l.sublayers| && LastAnimationToFinish(l.sublayers[i]).Some?
        ensures Reach(l.beginTime, LastAnimationToFinish(l.sublayers[i]).value) <= Reach(l.beginTime, LastAnimationToFinish(l).value)
      {
        SubCandidatesComplete(l, |l.sublayers|, i);
        var d := Lift(i, LastAnimationToFinish(l.sublayers[i]).value);
        var j :| 0 <= j < |SubCandidates(l, |l.sublayers|)| && SubCandidates(l, |l.sublayers|)[j] == d;
        assert cs[|own| + j] == d;
      }
    }
  }

  /**
   * The search finds nothing exactly when no own animation and no sublayer answer
   * finishes after time 0, measured with this layer's `beginTime`.
   */
  lemma {:induction false} LastAnimationToFinishNone(l: Layer)
    ensures LastAnimationToFinish(l).None? <==>
      (forall j :: 0 <= j < |l.animations| ==> l.beginTime + l.animations[j].animation.FinishTime() <= 0.0) &&
      (forall i :: 0 <= i < |l.sublayers| && LastAnimationToFinish(l.sublayers[i]).Some? ==>
         Reach(l.beginTime, LastAnimationToFinish(l.sublayers[i]).value) <= 0.0)
  {
    var cs := Candidates(l);
    var own := OwnCandidates(l.animations);
    var subs := SubCandidates(l, |l.sublayers|);
    ScanIsFirstLatest(l.beginTime, cs);
    LastAnimationToFinishIsLatest(l);
    if (forall j :: 0 <= j < |l.animations| ==> l.beginTime + l.animations[j].animation.FinishTime() <= 0.0) &&
       (forall i :: 0 <= i < |l.sublayers| && LastAnimationToFinish(l.sublayers[i]).Some? ==>
         Reach(l.beginTime, LastAnimationToFinish(l.sublayers[i]).value) <= 0.0)
    {
      forall j | 0 <= j < |cs| ensures Reach(l.beginTime, cs[j]) <= 0.0 {
        if j < |own| {
          OwnCandidatesAt(l.animations, j);
        } else {
          assert cs[j] == subs[j - |own|];
          SubCandidatesSound(l, |l.sublayers|, cs[j]);
        }
      }
    }
    if LastAnimationToFinish(l).None? {
      forall j | 0 <= j < |l.animations|
        ensures l.beginTime + l.animations[j].animation.FinishTime() <= 0.0
      {
        OwnCandidatesAt(l.animations, j);
        assert cs[j] == own[j];
      }
      forall i | 0 <= i < |l.sublayers| && LastAnimationToFinish(l.sublayers[i]).Some?
        ensures Reach(l.beginTime, LastAnimationToFinish(l.sublayers[i]).value) <= 0.0
      {
        SubCandidatesComplete(l, |l.sublayers|, i);
        var d := Lift(i, LastAnimationToFinish(l.sublayers[i]).value);
        var j :| 0 <= j < |subs| && subs[j] == d;
        assert cs[|own| + j] == d;
      }
    }
  }

  /**
   * Ties go to the first candidate in search order (own keys in key order, then sublayers in
   * order): every candidate compared before the answer finishes strictly earlier.
   */
  lemma {:induction false} LastAnimationToFinishKeepsFirst(l: Layer)
    ensures LastAnimationToFinish(l).Some? ==>
      exists i :: 0 <= i < |Candidates(l)| && Candidates(l)[i] == LastAnimationToFinish(l).value &&
        forall j :: 0 <= j < i ==> Reach(l.beginTime, Candidates(l)[j]) < Reach(l.beginTime, Candidates(l)[i])
  {
    ScanIsFirstLatest(l.beginTime, Candidates(l));
  }
}
