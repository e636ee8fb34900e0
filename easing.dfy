/**
 * The keyframe easing engine: per-style Bezier handle placement scaled by a
 * strength, the rescaling of a handle to a fixed length along its direction,
 * the inference of a style from an F-curve's data path and value trend, the
 * cheaper "smart" placement, copying easing between matching curves, and the
 * reset to linear; with the operators that run them over the curves of the
 * selected objects.
 */
module Easing {
  import opened Strings
  import opened Anim

  datatype EasingStyle =
    | EaseIn | EaseOut | EaseInOut
    | Overshoot | Anticipate | Bounce | Elastic | Back
    | Custom
  {
    /** The styles that place both handles themselves, as FREE handles. */
    predicate IsFree() {
      Overshoot? || Anticipate? || Bounce? || Elastic? || Back?
    }
  }

  /**
   * Reference table of the FREE styles' right-handle offsets from `co` at
   * strength `s`; each style's left handle is the point reflection of the right
   * one through `co`.
   */
  function FreeOffset(style: EasingStyle, s: real): Vec2
    requires style.IsFree()
  {
    match style
    case Overshoot => Vec2(0.3 * s, 0.15 * s)
    case Anticipate => Vec2(0.4 * s, -0.12 * s)
    case Bounce => Vec2(0.35 * s, 0.5 * s)
    case Elastic => Vec2(0.6 * s, -0.48 * s)
    case Back => Vec2(0.15 * s, 0.3 * s)
  }

  datatype Handles = Handles(left: Vec2, right: Vec2)

  /** Both handles at the given offset on either side of `co`. */
  ghost predicate PlacedAt(h: Handles, co: Vec2, offset: Vec2) {
    h.left == co.Sub(offset) && h.right == co.Add(offset)
  }

  function OvershootHandles(co: Vec2, strength: real): (h: Handles)
    ensures PlacedAt(h, co, FreeOffset(Overshoot, strength))
  {
    var offset := strength * 0.3;
    Handles(Vec2(co.x - offset, co.y - offset * 0.5), Vec2(co.x + offset, co.y + offset * 0.5))
  }

  function AnticipateHandles(co: Vec2, strength: real): (h: Handles)
    ensures PlacedAt(h, co, FreeOffset(Anticipate, strength))
  {
    var offset := strength * 0.4;
    Handles(Vec2(co.x - offset, co.y + offset * 0.3), Vec2(co.x + offset, co.y - offset * 0.3))
  }

  function BounceHandles(co: Vec2, strength: real): (h: Handles)
    ensures PlacedAt(h, co, FreeOffset(Bounce, strength))
  {
    var offset := strength * 0.5;
    Handles(Vec2(co.x - offset * 0.7, co.y - offset), Vec2(co.x + offset * 0.7, co.y + offset))
  }

  function ElasticHandles(co: Vec2, strength: real): (h: Handles)
    ensures PlacedAt(h, co, FreeOffset(Elastic, strength))
  {
    var offset := strength * 0.6;
    Handles(Vec2(co.x - offset, co.y + offset * 0.8), Vec2(co.x + offset, co.y - offset * 0.8))
  }

  function BackHandles(co: Vec2, strength: real): (h: Handles)
    ensures PlacedAt(h, co, FreeOffset(Back, strength))
  {
    var offset := strength * 0.3;
    Handles(Vec2(co.x - offset * 0.5, co.y - offset), Vec2(co.x + offset * 0.5, co.y + offset))
  }

  /**
   * Every FREE style puts its handles point-symmetrically about `co`, the left
   * one earlier and the right one later in time when the strength is positive.
   */
  lemma FreeHandlesShape(style: EasingStyle, co: Vec2, s: real)
    requires style.IsFree()
    ensures var o := FreeOffset(style, s);
      co.Sub(o).Add(co.Add(o)) == co.Scale(2.0)
      && (s > 0.0 ==> co.Sub(o).x < co.x < co.Add(o).x)
  {
  }

  lemma ScaleFacts(u: Vec2, k: real, d: Vec2)
    ensures Dot(u.Scale(k), u.Scale(k)) == k * k * Dot(u, u)
    ensures Cross(u.Scale(k), d) == k * Cross(u, d)
    ensures Dot(u.Scale(k), d) == k * Dot(u, d)
  {
  }

  /** Scaling a vector of length `l > 0` by `1 / l` gives a unit vector along it. */
  lemma UnitFacts(v: Vec2, l: real)
    ensures l > 0.0 && l * l == Dot(v, v) ==>
      var u := v.Scale(1.0 / l);
      Dot(u, u) == 1.0 && Cross(u, v) == 0.0 && Dot(u, v) == l
  {
    if l > 0.0 && l * l == Dot(v, v) {
      var inv := 1.0 / l;
      assert l * inv == 1.0;
      ScaleFacts(v, inv, v);
      calc {
        Dot(v.Scale(inv), v.Scale(inv));
        inv * inv * Dot(v, v);
        inv * inv * (l * l);
        (inv * l) * (inv * l);
        1.0;
      }
      calc {
        Dot(v.Scale(inv), v);
        inv * Dot(v, v);
        inv * (l * l);
        (inv * l) * l;
        l;
      }
    }
  }

  /**
   * mathutils' `normalized()`: the unit vector along `v`, and the zero vector
   * when `v` is zero.
   */
  function Normalized(v: Vec2, len: Vec2 -> real): (u: Vec2)
    ensures IsLength(len) && v == Vec2(0.0, 0.0) ==> u == v
    ensures IsLength(len) && v != Vec2(0.0, 0.0) ==>
      Dot(u, u) == 1.0 && Cross(u, v) == 0.0 && Dot(u, v) == len(v) > 0.0
  {
    var l := len(v);
    if l == 0.0 then Vec2(0.0, 0.0) else UnitFacts(v, l); v.Scale(1.0 / l)
  }

  /**
   * `h2` is `h` moved along its direction from `co` to distance `target`: the
   * point `co + target * (h - co) / |h - co|`, or `co` itself when `h` is `co`.
   */
  ghost predicate Rescaled(co: Vec2, h: Vec2, h2: Vec2, target: real, len: Vec2 -> real) {
    (h == co ==> h2 == co)
    && (h != co ==>
          Dist2(h2, co) == target * target
          && Cross(h2.Sub(co), h.Sub(co)) == 0.0
          && Dot(h2.Sub(co), h.Sub(co)) == target * len(h.Sub(co)))
  }

  lemma MoveFacts(co: Vec2, d: Vec2, u: Vec2, k: real)
    ensures var h2 := co.Add(u.Scale(k));
      h2.Sub(co) == u.Scale(k)
      && Dist2(h2, co) == k * k * Dot(u, u)
      && Cross(h2.Sub(co), d) == k * Cross(u, d)
      && Dot(h2.Sub(co), d) == k * Dot(u, d)
  {
    var h2 := co.Add(u.Scale(k));
    assert h2.Sub(co) == u.Scale(k);
    ScaleFacts(u, k, d);
  }

  /**
   * Moving `co` by `k` times a unit vector `u` along `h - co` (the zero vector
   * when `h` is `co`) puts the new point at distance `k` on that line.
   */
  lemma RescaledByUnit(co: Vec2, h: Vec2, u: Vec2, k: real, l: real)
    ensures (h == co ==> u == Vec2(0.0, 0.0))
            && (h != co ==> Dot(u, u) == 1.0 && Cross(u, h.Sub(co)) == 0.0 && Dot(u, h.Sub(co)) == l)
      ==> var h2 := co.Add(u.Scale(k));
          (h == co ==> h2 == co)
          && (h != co ==>
                Dist2(h2, co) == k * k
                && Cross(h2.Sub(co), h.Sub(co)) == 0.0
                && Dot(h2.Sub(co), h.Sub(co)) == k * l)
  {
    if h != co {
      MoveFacts(co, h.Sub(co), u, k);
    }
  }

  /** One side of `adjust_handle_strength`: the handle rescaled to length `0.5 * strength`. */
  function AdjustHandle(co: Vec2, h: Vec2, strength: real, len: Vec2 -> real): (h2: Vec2)
    ensures IsLength(len) ==> Rescaled(co, h, h2, 0.5 * strength, len)
  {
    var direction := Normalized(h.Sub(co), len);
    assert direction.Scale(strength).Scale(0.5) == direction.Scale(0.5 * strength);
    assert h == co <==> h.Sub(co) == Vec2(0.0, 0.0);
    RescaledByUnit(co, h, direction, 0.5 * strength, len(h.Sub(co)));
    co.Add(direction.Scale(strength).Scale(0.5))
  }

  /** The FREE handles of a FREE style, by its `create_*_handles` helper. */
  function FreeHandles(style: EasingStyle, co: Vec2, strength: real): (h: Handles)
    requires style.IsFree()
    ensures PlacedAt(h, co, FreeOffset(style, strength))
  {
    match style
    case Overshoot => OvershootHandles(co, strength)
    case Anticipate => AnticipateHandles(co, strength)
    case Bounce => BounceHandles(co, strength)
    case Elastic => ElasticHandles(co, strength)
    case Back => BackHandles(co, strength)
  }

  /** EASE_IN: VECTOR left, AUTO right, the right handle rescaled. */
  function EaseInKey(k: Keyframe, strength: real, len: Vec2 -> real): (r: Keyframe)
    requires IsLength(len)
    ensures r.co == k.co && r.interpolation == Bezier
    ensures r.leftType == Vector && r.rightType == Auto && r.handleLeft == k.handleLeft
    ensures Rescaled(k.co, k.handleRight, r.handleRight, 0.5 * strength, len)
  {
    k.(interpolation := Bezier, leftType := Vector, rightType := Auto,
       handleRight := AdjustHandle(k.co, k.handleRight, strength, len))
  }

  /** EASE_OUT: AUTO left, VECTOR right, the left handle rescaled. */
  function EaseOutKey(k: Keyframe, strength: real, len: Vec2 -> real): (r: Keyframe)
    requires IsLength(len)
    ensures r.co == k.co && r.interpolation == Bezier
    ensures r.leftType == Auto && r.rightType == Vector && r.handleRight == k.handleRight
    ensures Rescaled(k.co, k.handleLeft, r.handleLeft, 0.5 * strength, len)
  {
    k.(interpolation := Bezier, leftType := Auto, rightType := Vector,
       handleLeft := AdjustHandle(k.co, k.handleLeft, strength, len))
  }

  /** EASE_IN_OUT: AUTO on both sides, both handles rescaled. */
  function EaseInOutKey(k: Keyframe, strength: real, len: Vec2 -> real): (r: Keyframe)
    requires IsLength(len)
    ensures r.co == k.co && r.interpolation == Bezier
    ensures r.leftType == Auto && r.rightType == Auto
    ensures Rescaled(k.co, k.handleLeft, r.handleLeft, 0.5 * strength, len)
    ensures Rescaled(k.co, k.handleRight, r.handleRight, 0.5 * strength, len)
  {
    k.(interpolation := Bezier, leftType := Auto, rightType := Auto,
       handleLeft := AdjustHandle(k.co, k.handleLeft, strength, len),
       handleRight := AdjustHandle(k.co, k.handleRight, strength, len))
  }

  /** A FREE style: FREE on both sides, the handles placed by the style's helper. */
  function FreeKey(k: Keyframe, style: EasingStyle, strength: real): (r: Keyframe)
    requires style.IsFree()
    ensures r.co == k.co && r.interpolation == Bezier
    ensures r.leftType == Free && r.rightType == Free
    ensures r.handleLeft == k.co.Sub(FreeOffset(style, strength))
    ensures r.handleRight == k.co.Add(FreeOffset(style, strength))
    ensures r.handleLeft.Add(r.handleRight) == k.co.Scale(2.0)
    ensures strength > 0.0 ==> r.handleLeft.x < k.co.x < r.handleRight.x
  {
    FreeHandlesShape(style, k.co, strength);
    var h := FreeHandles(style, k.co, strength);
    k.(interpolation := Bezier, leftType := Free, rightType := Free, handleLeft := h.left, handleRight := h.right)
  }

  /**
   * The body of the keyframe loop of `apply_easing_to_fcurve`, for one
   * keyframe: BEZIER interpolation, then the style's handle types and
   * positions; CUSTOM stops after the interpolation.
   */
  function EaseKey(k: Keyframe, style: EasingStyle, strength: real, len: Vec2 -> real): (r: Keyframe)
    requires IsLength(len)
    ensures r.co == k.co && r.interpolation == Bezier
    ensures style == Custom ==> r == k.(interpolation := Bezier)
    ensures style.IsFree() ==> r == FreeKey(k, style, strength)
    ensures style == EaseIn ==> r == EaseInKey(k, strength, len)
    ensures style == EaseOut ==> r == EaseOutKey(k, strength, len)
    ensures style == EaseInOut ==> r == EaseInOutKey(k, strength, len)
  {
    match style
    case Custom => k.(interpolation := Bezier)
    case EaseIn => EaseInKey(k, strength, len)
    case EaseOut => EaseOutKey(k, strength, len)
    case EaseInOut => EaseInOutKey(k, strength, len)
    case _ => FreeKey(k, style, strength)
  }

  /** The keyframes of a curve after `apply_easing_to_fcurve`. */
  function EaseCurve(ks: seq<Keyframe>, style: EasingStyle, strength: real, len: Vec2 -> real): (r: seq<Keyframe>)
    requires IsLength(len)
    ensures |r| == |ks|
    ensures |ks| < 2 ==> r == ks
    ensures |ks| >= 2 ==> forall i :: 0 <= i < |ks| ==> r[i] == EaseKey(ks[i], style, strength, len)
  {
    if |ks| < 2 then ks else seq(|ks|, i requires 0 <= i < |ks| => EaseKey(ks[i], style, strength, len))
  }

  /**
   * `apply_easing_to_fcurve`: a curve with fewer than two keyframes is left
   * alone and reported as not eased; otherwise every keyframe is eased.
   */
  method ApplyEasingToCurve(c: FCurve, style: EasingStyle, strength: real, len: Vec2 -> real) returns (applied: bool)
    requires IsLength(len)
    modifies c.keys
    ensures applied == (c.keys.Length >= 2)
    ensures c.keys[..] == EaseCurve(old(c.keys[..]), style, strength, len)
  {
    if c.keys.Length < 2 {
      return false;
    }
    MapKeys(c.keys, (k: Keyframe) => EaseKey(k, style, strength, len));
    return true;
  }

  /** The number of curves with at least two keyframes. */
  function EligibleCount(cs: seq<FCurve>): (n: nat)
    ensures n <= |cs|
  {
    if cs == [] then 0
    else EligibleCount(cs[..|cs| - 1]) + (if cs[|cs| - 1].keys.Length >= 2 then 1 else 0)
  }

  /** One more curve adds one to the count exactly when it has two keyframes or more. */
  lemma EligibleCountStep(cs: seq<FCurve>, j: int)
    requires 0 <= j < |cs|
    ensures EligibleCount(cs[..j + 1]) == EligibleCount(cs[..j]) + (if cs[j].keys.Length >= 2 then 1 else 0)
  {
    assert cs[..j + 1][..j] == cs[..j];
  }

  /** Some object has animation data (possibly without an action). */
  predicate AnyAnimated(objs: seq<SceneObject>)
    reads objs
  {
    exists i :: 0 <= i < |objs| && objs[i].animation != NoAnimationData
  }

  lemma {:induction false} InanimateHaveNoCurves(objs: seq<SceneObject>)
    requires !AnyAnimated(objs)
    ensures AllCurves(objs) == []
  {
    if objs != [] {
      assert !AnyAnimated(objs[1..]) by {
        forall i | 0 <= i < |objs[1..]| ensures objs[1..][i].animation == NoAnimationData {
          assert objs[1..][i] == objs[i + 1];
        }
      }
      InanimateHaveNoCurves(objs[1..]);
    }
  }

  /**
   * `NORENT_OT_ApplyEasing.execute`: cancelled when no selected object has
   * animation data; otherwise every curve of every action is eased and the
   * result counts the curves that had at least two keyframes.
   */
  method ApplyEasingExecute(selected: seq<SceneObject>, style: EasingStyle, strength: real, len: Vec2 -> real)
    returns (status: Status, applied: nat)
    requires IsLength(len)
    requires DistinctKeys(AllCurves(selected))
    modifies KeyArrays(AllCurves(selected))
    ensures status == if AnyAnimated(selected) then Finished else Cancelled
    ensures applied == EligibleCount(AllCurves(selected))
    ensures var cs := AllCurves(selected);
      forall j :: 0 <= j < |cs| ==> cs[j].keys[..] == EaseCurve(old(cs[j].keys[..]), style, strength, len)
  {
    if !AnyAnimated(selected) {
      InanimateHaveNoCurves(selected);
      return Cancelled, 0;
    }
    applied := EaseCurves(AllCurves(selected), style, strength, len);
    status := Finished;
  }

  /** The two nested loops of the apply operator, over the flattened list of curves. */
  method EaseCurves(cs: seq<FCurve>, style: EasingStyle, strength: real, len: Vec2 -> real) returns (applied: nat)
    requires IsLength(len)
    requires DistinctKeys(cs)
    modifies KeyArrays(cs)
    ensures applied == EligibleCount(cs)
    ensures forall j :: 0 <= j < |cs| ==> cs[j].keys[..] == EaseCurve(old(cs[j].keys[..]), style, strength, len)
  {
    applied := 0;
    var j := 0;
    while j < |cs|
      invariant 0 <= j <= |cs|
      invariant applied == EligibleCount(cs[..j])
      invariant forall m :: 0 <= m < j ==> cs[m].keys[..] == EaseCurve(old(cs[m].keys[..]), style, strength, len)
      invariant forall m :: j <= m < |cs| ==> cs[m].keys[..] == old(cs[m].keys[..])
    {
      var ok := ApplyEasingToCurve(cs[j], style, strength, len);
      if ok {
        applied := applied + 1;
      }
      EligibleCountStep(cs, j);
      j := j + 1;
    }
    assert cs[..|cs|] == cs;
  }

  /**
   * `determine_smart_easing`: the first data-path test that matches decides,
   * in the order scale, location, rotation, alpha/factor; an alpha or factor
   * curve with two or more keys eases out when its first value is below its
   * last and in otherwise; everything else eases in and out.
   */
  function DetermineSmartEasing(dataPath: string, keys: seq<Keyframe>): (r: EasingStyle)
    ensures r == EaseIn || r == EaseOut || r == EaseInOut || r == Overshoot
    ensures r == Overshoot <==> Contains(dataPath, "scale")
    ensures r == EaseOut <==>
      IsFadePath(dataPath) && |keys| >= 2 && keys[0].co.y < keys[|keys| - 1].co.y
    ensures r == EaseIn <==>
      IsFadePath(dataPath) && |keys| >= 2 && !(keys[0].co.y < keys[|keys| - 1].co.y)
  {
    if Contains(dataPath, "scale") then Overshoot
    else if Contains(dataPath, "location") then EaseInOut
    else if Contains(dataPath, "rotation") then EaseInOut
    else if Contains(dataPath, "alpha") || Contains(dataPath, "factor") then
      if |keys| >= 2 then
        var startVal := keys[0].co.y;
        var endVal := keys[|keys| - 1].co.y;
        if startVal < endVal then EaseOut else EaseIn
      else EaseInOut
    else EaseInOut
  }

  /** A data path that reaches the alpha/factor test: no earlier test matched it. */
  predicate IsFadePath(p: string) {
    !Contains(p, "scale") && !Contains(p, "location") && !Contains(p, "rotation")
    && (Contains(p, "alpha") || Contains(p, "factor"))
  }

  /** The body of the keyframe loop of `apply_smart_easing`, for one keyframe. */
  function SmartEaseKey(k: Keyframe, style: EasingStyle): (r: Keyframe)
    ensures r.co == k.co && r.interpolation == Bezier
    ensures style != Overshoot ==> r.handleLeft == k.handleLeft && r.handleRight == k.handleRight
    ensures style == EaseIn ==> r.leftType == Vector && r.rightType == Auto
    ensures style == EaseOut ==> r.leftType == Auto && r.rightType == Vector
    ensures style == EaseInOut ==> r.leftType == Auto && r.rightType == Auto
    ensures style == Overshoot ==>
      r.leftType == Free && r.rightType == Free
      && r.handleLeft == Vec2(k.co.x - 0.3, k.co.y - 0.15)
      && r.handleRight == Vec2(k.co.x + 0.3, k.co.y + 0.15)
    ensures !(style.EaseIn? || style.EaseOut? || style.EaseInOut? || style.Overshoot?) ==>
      r == k.(interpolation := Bezier)
  {
    var b := k.(interpolation := Bezier);
    match style
    case EaseIn => b.(leftType := Vector, rightType := Auto)
    case EaseOut => b.(leftType := Auto, rightType := Vector)
    case EaseInOut => b.(leftType := Auto, rightType := Auto)
    case Overshoot =>
      var co := k.co;
      b.(leftType := Free, rightType := Free,
         handleLeft := Vec2(co.x - 0.3, co.y - 0.15), handleRight := Vec2(co.x + 0.3, co.y + 0.15))
    case _ => b
  }

  /**
   * The smart OVERSHOOT is the full engine's OVERSHOOT at strength 1, whatever
   * strength the full engine would otherwise be given.
   */
  lemma SmartOvershootIsUnitStrength(k: Keyframe, len: Vec2 -> real)
    requires IsLength(len)
    ensures SmartEaseKey(k, Overshoot) == EaseKey(k, Overshoot, 1.0, len)
  {
  }

  /**
   * For the AUTO/VECTOR styles the smart variant sets the same modes as the
   * full engine but leaves the handle positions where they were.
   */
  lemma SmartAutoStylesKeepHandles(k: Keyframe, style: EasingStyle, strength: real, len: Vec2 -> real)
    requires IsLength(len)
    requires style == EaseIn || style == EaseOut || style == EaseInOut
    ensures var r, e := SmartEaseKey(k, style), EaseKey(k, style, strength, len);
      r.interpolation == e.interpolation && r.leftType == e.leftType && r.rightType == e.rightType
      && r.handleLeft == k.handleLeft && r.handleRight == k.handleRight
  {
  }

  function SmartCurve(ks: seq<Keyframe>, style: EasingStyle): (r: seq<Keyframe>)
    ensures |r| == |ks|
    ensures |ks| < 2 ==> r == ks
    ensures |ks| >= 2 ==> forall i :: 0 <= i < |ks| ==> r[i] == SmartEaseKey(ks[i], style)
  {
    if |ks| < 2 then ks else seq(|ks|, i requires 0 <= i < |ks| => SmartEaseKey(ks[i], style))
  }

  /** `apply_smart_easing`: skips curves with fewer than two keyframes. */
  method ApplySmartEasing(c: FCurve, style: EasingStyle) returns (applied: bool)
    modifies c.keys
    ensures applied == (c.keys.Length >= 2)
    ensures c.keys[..] == SmartCurve(old(c.keys[..]), style)
  {
    if c.keys.Length < 2 {
      return false;
    }
    MapKeys(c.keys, (k: Keyframe) => SmartEaseKey(k, style));
    return true;
  }

  /**
   * `NORENT_OT_SmartEasing.execute`: every curve of every selected object with
   * an action gets the style inferred from its own data path and keys, and the
   * result counts the curves with at least two keyframes.
   */
  method SmartEasingExecute(selected: seq<SceneObject>) returns (applied: nat)
    requires DistinctKeys(AllCurves(selected))
    modifies KeyArrays(AllCurves(selected))
    ensures applied == EligibleCount(AllCurves(selected))
    ensures var cs := AllCurves(selected);
      forall j :: 0 <= j < |cs| ==>
        cs[j].keys[..] == SmartCurve(old(cs[j].keys[..]), DetermineSmartEasing(cs[j].dataPath, old(cs[j].keys[..])))
  {
    applied := SmartCurves(AllCurves(selected));
  }

  /** The loops of the smart operator, over the flattened list of curves. */
  method SmartCurves(cs: seq<FCurve>) returns (applied: nat)
    requires DistinctKeys(cs)
    modifies KeyArrays(cs)
    ensures applied == EligibleCount(cs)
    ensures forall j :: 0 <= j < |cs| ==>
      cs[j].keys[..] == SmartCurve(old(cs[j].keys[..]), DetermineSmartEasing(cs[j].dataPath, old(cs[j].keys[..])))
  {
    applied := 0;
    var j := 0;
    while j < |cs|
      invariant 0 <= j <= |cs|
      invariant applied == EligibleCount(cs[..j])
      invariant forall m :: 0 <= m < j ==>
        cs[m].keys[..] == SmartCurve(old(cs[m].keys[..]), DetermineSmartEasing(cs[m].dataPath, old(cs[m].keys[..])))
      invariant forall m :: j <= m < |cs| ==> cs[m].keys[..] == old(cs[m].keys[..])
    {
      var style := DetermineSmartEasing(cs[j].dataPath, cs[j].keys[..]);
      var ok := ApplySmartEasing(cs[j], style);
      if ok {
        applied := applied + 1;
      }
      EligibleCountStep(cs, j);
      j := j + 1;
    }
    assert cs[..|cs|] == cs;
  }

  /**
   * The copy of one source keyframe's easing onto a target keyframe: modes
   * verbatim, and for each FREE source handle its offset from the source
   * centre, re-applied at the target's own centre.
   */
  function CopyKey(target: Keyframe, source: Keyframe): (r: Keyframe)
    ensures r.co == target.co
    ensures r.interpolation == source.interpolation
    ensures r.leftType == source.leftType && r.rightType == source.rightType
    ensures source.leftType == Free ==> r.handleLeft.Sub(r.co) == source.handleLeft.Sub(source.co)
    ensures source.leftType != Free ==> r.handleLeft == target.handleLeft
    ensures source.rightType == Free ==> r.handleRight.Sub(r.co) == source.handleRight.Sub(source.co)
    ensures source.rightType != Free ==> r.handleRight == target.handleRight
  {
    var k := target.WithModes(source.interpolation, source.leftType, source.rightType);
    var k := if source.leftType == Free then k.(handleLeft := k.co.Add(source.handleLeft.Sub(source.co))) else k;
    if source.rightType == Free then k.(handleRight := k.co.Add(source.handleRight.Sub(source.co))) else k
  }

  /** Copying a keyframe's easing onto itself changes nothing. */
  lemma CopyKeyOntoItself(k: Keyframe)
    ensures CopyKey(k, k) == k
  {
  }

  /** The target keys after copying from `source` index by index. */
  function CopiedKeys(target: seq<Keyframe>, source: seq<Keyframe>): (r: seq<Keyframe>)
    ensures |r| == |target|
    ensures forall i :: 0 <= i < |target| ==>
      r[i] == if i < |source| then CopyKey(target[i], source[i]) else target[i]
  {
    seq(|target|, i requires 0 <= i < |target| => if i < |source| then CopyKey(target[i], source[i]) else target[i])
  }

  /** The keyframe loop of the copy operator, for one matched pair of curves. */
  method CopyCurveEasing(source: FCurve, target: FCurve)
    requires source.keys != target.keys
    modifies target.keys
    ensures target.keys[..] == CopiedKeys(old(target.keys[..]), source.keys[..])
  {
    var i := 0;
    while i < target.keys.Length
      invariant 0 <= i <= target.keys.Length
      invariant forall m :: 0 <= m < i ==>
        target.keys[m] == if m < source.keys.Length then CopyKey(old(target.keys[m]), source.keys[m]) else old(target.keys[m])
      invariant forall m :: i <= m < target.keys.Length ==> target.keys[m] == old(target.keys[m])
    {
      if i < source.keys.Length {
        var activeKey := source.keys[i];
        target.keys[i] := CopyKey(target.keys[i], activeKey);
      }
      i := i + 1;
    }
  }

  /** Curves for the same channel: equal data path and array index. */
  predicate SameChannel(a: FCurve, b: FCurve) {
    a.dataPath == b.dataPath && a.arrayIndex == b.arrayIndex
  }

  /** No two curves of an action animate the same channel. */
  predicate UniqueChannels(cs: seq<FCurve>) {
    forall i, j :: 0 <= i < j < |cs| ==> !SameChannel(cs[i], cs[j])
  }

  /** The number of curves of `ts` on the channel of `a`: at most all of them. */
  function MatchCount(a: FCurve, ts: seq<FCurve>): (r: nat)
    ensures r <= |ts|
  {
    if ts == [] then 0
    else MatchCount(a, ts[..|ts| - 1]) + (if SameChannel(a, ts[|ts| - 1]) then 1 else 0)
  }

  /** No curve matches exactly when no curve of `ts` is on the channel of `a`. */
  lemma {:induction false} MatchCountZero(a: FCurve, ts: seq<FCurve>)
    ensures MatchCount(a, ts) == 0 <==> forall m :: 0 <= m < |ts| ==> !SameChannel(a, ts[m])
    decreases |ts|
  {
    if ts != [] {
      var init := ts[..|ts| - 1];
      MatchCountZero(a, init);
      assert forall m :: 0 <= m < |init| ==> init[m] == ts[m];
    }
  }

  /** The number of matching (source, target) pairs, which is what the copy operator counts. */
  function PairCount(sources: seq<FCurve>, ts: seq<FCurve>): nat {
    if sources == [] then 0
    else PairCount(sources[..|sources| - 1], ts) + MatchCount(sources[|sources| - 1], ts)
  }

  /** No pair is counted exactly when no source shares a channel with a target. */
  lemma {:induction false} PairCountZero(sources: seq<FCurve>, ts: seq<FCurve>)
    ensures PairCount(sources, ts) == 0 <==>
      forall i, m :: 0 <= i < |sources| && 0 <= m < |ts| ==> !SameChannel(sources[i], ts[m])
    decreases |sources|
  {
    if sources != [] {
      var init := sources[..|sources| - 1];
      PairCountZero(init, ts);
      MatchCountZero(sources[|sources| - 1], ts);
      assert forall i :: 0 <= i < |init| ==> init[i] == sources[i];
    }
  }

  /** One more target adds the number of sources on its channel. */
  lemma {:induction false} PairCountSnoc(sources: seq<FCurve>, ts: seq<FCurve>, t: FCurve)
    ensures PairCount(sources, ts + [t]) == PairCount(sources, ts) + MatchCount(t, sources)
    decreases |sources|
  {
    if sources != [] {
      var init, last := sources[..|sources| - 1], sources[|sources| - 1];
      PairCountSnoc(init, ts, t);
      assert (ts + [t])[..|ts|] == ts;
    }
  }

  /** Among sources on distinct channels, at most one is on the channel of `t`. */
  lemma {:induction false} MatchCountUnique(t: FCurve, sources: seq<FCurve>)
    requires UniqueChannels(sources)
    ensures MatchCount(t, sources) <= 1
    decreases |sources|
  {
    if sources != [] {
      var init, last := sources[..|sources| - 1], sources[|sources| - 1];
      assert UniqueChannels(init) by {
        forall i, j | 0 <= i < j < |init| ensures !SameChannel(init[i], init[j]) {
          assert init[i] == sources[i] && init[j] == sources[j];
        }
      }
      MatchCountUnique(t, init);
      if SameChannel(t, last) {
        forall m | 0 <= m < |init| ensures !SameChannel(t, init[m]) {
          assert init[m] == sources[m] && !SameChannel(sources[m], last);
        }
        MatchCountZero(t, init);
      }
    }
  }

  /**
   * When the active curves are on distinct channels, the copy count is at
   * most the number of target curves: each target is matched at most once.
   */
  lemma {:induction false} PairCountAtMostTargets(sources: seq<FCurve>, ts: seq<FCurve>)
    requires UniqueChannels(sources)
    ensures PairCount(sources, ts) <= |ts|
    decreases |ts|
  {
    if ts == [] {
      PairCountZero(sources, ts);
    } else {
      var init, last := ts[..|ts| - 1], ts[|ts| - 1];
      assert init + [last] == ts;
      PairCountAtMostTargets(sources, init);
      PairCountSnoc(sources, init, last);
      MatchCountUnique(last, sources);
    }
  }

  /** One more source curve adds its matches to the pair count. */
  lemma PairCountStep(sources: seq<FCurve>, ts: seq<FCurve>, i: int)
    requires 0 <= i < |sources|
    ensures PairCount(sources[..i + 1], ts) == PairCount(sources[..i], ts) + MatchCount(sources[i], ts)
  {
    assert sources[..i + 1][..i] == sources[..i];
  }

  /** The index of the last source curve on the channel of `t`, or -1. */
  function SourceIndex(sources: seq<FCurve>, t: FCurve): (r: int)
    ensures -1 <= r < |sources|
    ensures r >= 0 ==> SameChannel(sources[r], t)
    ensures r < 0 ==> forall k :: 0 <= k < |sources| ==> !SameChannel(sources[k], t)
  {
    if sources == [] then -1
    else if SameChannel(sources[|sources| - 1], t) then |sources| - 1
    else SourceIndex(sources[..|sources| - 1], t)
  }

  /** What a target curve's keys become after the copy operator, from its old keys. */
  function CopyResult(sources: seq<FCurve>, t: FCurve, oldKeys: seq<Keyframe>): seq<Keyframe>
    reads set a | a in sources :: a.keys
  {
    var k := SourceIndex(sources, t);
    if k < 0 then oldKeys else CopiedKeys(oldKeys, sources[k].keys[..])
  }

  /**
   * The inner copy loop for one source curve: every target curve on its
   * channel gets its easing, the others are left alone.
   */
  method CopyFromCurve(source: FCurve, ts: seq<FCurve>) returns (n: nat)
    requires DistinctKeys(ts) && source.keys !in KeyArrays(ts)
    modifies KeyArrays(ts)
    ensures n == MatchCount(source, ts)
    ensures forall m :: 0 <= m < |ts| ==>
      ts[m].keys[..] == if SameChannel(source, ts[m]) then CopiedKeys(old(ts[m].keys[..]), source.keys[..])
                        else old(ts[m].keys[..])
  {
    n := 0;
    var j := 0;
    while j < |ts|
      invariant 0 <= j <= |ts|
      invariant n == MatchCount(source, ts[..j])
      invariant forall m :: 0 <= m < j ==>
        ts[m].keys[..] == if SameChannel(source, ts[m]) then CopiedKeys(old(ts[m].keys[..]), source.keys[..])
                          else old(ts[m].keys[..])
      invariant forall m :: j <= m < |ts| ==> ts[m].keys[..] == old(ts[m].keys[..])
    {
      if SameChannel(source, ts[j]) {
        CopyCurveEasing(source, ts[j]);
        n := n + 1;
      }
      assert ts[..j + 1][..j] == ts[..j];
      j := j + 1;
    }
    assert ts[..|ts|] == ts;
  }

  /** The selected objects other than the active one. */
  function Others(selected: seq<SceneObject>, active: SceneObject?): (r: seq<SceneObject>)
    ensures forall i :: 0 <= i < |r| ==> r[i] in selected && r[i] != active
    ensures forall i :: 0 <= i < |selected| && selected[i] != active ==> selected[i] in r
  {
    if selected == [] then []
    else (if selected[0] != active then [selected[0]] else []) + Others(selected[1..], active)
  }

  lemma SourceIndexStep(sources: seq<FCurve>, i: nat, t: FCurve)
    requires i < |sources| && UniqueChannels(sources)
    ensures SameChannel(sources[i], t) ==> SourceIndex(sources[..i], t) == -1 && SourceIndex(sources[..i + 1], t) == i
    ensures !SameChannel(sources[i], t) ==> SourceIndex(sources[..i + 1], t) == SourceIndex(sources[..i], t)
  {
    assert sources[..i + 1][..i] == sources[..i];
  }

  /** Whether the copy operator is cancelled before copying anything. */
  predicate CopyCancelled(active: SceneObject?, selected: seq<SceneObject>)
    reads active
  {
    active == null || active.animation == NoAnimationData || Others(selected, active) == []
    || active.animation == NoAction
  }

  /**
   * The copy operator goes ahead exactly when there is an active object whose
   * animation data holds an action and some selected object is not the active
   * one.
   */
  lemma CopyCancelledIff(active: SceneObject?, selected: seq<SceneObject>)
    ensures !CopyCancelled(active, selected) <==>
      active != null && active.animation.Action? && exists j :: 0 <= j < |selected| && selected[j] != active
  {
    var others := Others(selected, active);
    if others != [] {
      assert others[0] in selected;
    }
  }

  /**
   * `NORENT_OT_CopyEasing.execute`: cancelled without an active object with an
   * action or without another selected object; otherwise every curve of every
   * other selected object takes the easing of the active object's curve on the
   * same channel, and the result counts the matched pairs.
   */
  method CopyEasingExecute(active: SceneObject?, selected: seq<SceneObject>) returns (status: Status, copied: nat)
    requires active != null ==> UniqueChannels(ActionCurves(active))
    requires DistinctKeys(AllCurves(Others(selected, active)))
    requires active != null ==> KeyArrays(ActionCurves(active)) !! KeyArrays(AllCurves(Others(selected, active)))
    modifies KeyArrays(AllCurves(Others(selected, active)))
    ensures status == (if CopyCancelled(active, selected) then Cancelled else Finished)
    ensures var ts := AllCurves(Others(selected, active));
      if status == Cancelled then
        copied == 0 && forall m :: 0 <= m < |ts| ==> ts[m].keys[..] == old(ts[m].keys[..])
      else
        var sources := ActionCurves(active);
        copied == PairCount(sources, ts)
        && forall m :: 0 <= m < |ts| ==> ts[m].keys[..] == CopyResult(sources, ts[m], old(ts[m].keys[..]))
  {
    if CopyCancelled(active, selected) {
      return Cancelled, 0;
    }
    copied := CopyCurves(active.animation.fcurves, AllCurves(Others(selected, active)));
    status := Finished;
  }

  /**
   * The loops of the copy operator over the active curves and the flattened
   * curves of the other selected objects.
   */
  method CopyCurves(sources: seq<FCurve>, ts: seq<FCurve>) returns (copied: nat)
    requires UniqueChannels(sources) && DistinctKeys(ts)
    requires KeyArrays(sources) !! KeyArrays(ts)
    modifies KeyArrays(ts)
    ensures copied == PairCount(sources, ts)
    ensures forall m :: 0 <= m < |ts| ==> ts[m].keys[..] == CopyResult(sources, ts[m], old(ts[m].keys[..]))
  {
    copied := 0;
    var i := 0;
    while i < |sources|
      invariant 0 <= i <= |sources|
      invariant copied == PairCount(sources[..i], ts)
      invariant forall m :: 0 <= m < |ts| ==> ts[m].keys[..] == CopyResult(sources[..i], ts[m], old(ts[m].keys[..]))
    {
      assert sources[i] in sources;
      var n := CopyFromCurve(sources[i], ts);
      copied := copied + n;
      forall m | 0 <= m < |ts|
        ensures ts[m].keys[..] == CopyResult(sources[..i + 1], ts[m], old(ts[m].keys[..]))
      {
        SourceIndexStep(sources, i, ts[m]);
      }
      PairCountStep(sources, ts, i);
      i := i + 1;
    }
    assert sources[..|sources|] == sources;
  }

  /** A keyframe after `NORENT_OT_ResetEasing`: LINEAR with two VECTOR handles. */
  function ResetKeys(ks: seq<Keyframe>): (r: seq<Keyframe>)
    ensures |r| == |ks|
    ensures forall i :: 0 <= i < |ks| ==>
      r[i].interpolation == Linear && r[i].leftType == Vector && r[i].rightType == Vector
      && r[i].co == ks[i].co && r[i].handleLeft == ks[i].handleLeft && r[i].handleRight == ks[i].handleRight
  {
    WithModesAll(ks, Linear, Vector, Vector)
  }

  /** Resetting twice gives the same keyframes as resetting once. */
  lemma ResetIdempotent(ks: seq<Keyframe>)
    ensures ResetKeys(ResetKeys(ks)) == ResetKeys(ks)
  {
  }

  /**
   * `NORENT_OT_ResetEasing.execute`: every keyframe of every curve of every
   * selected object with an action is reset, and every such curve is counted,
   * empty or not.
   */
  method ResetEasingExecute(selected: seq<SceneObject>) returns (resetCount: nat)
    requires DistinctKeys(AllCurves(selected))
    modifies KeyArrays(AllCurves(selected))
    ensures resetCount == |AllCurves(selected)|
    ensures var cs := AllCurves(selected);
      forall j :: 0 <= j < |cs| ==> cs[j].keys[..] == ResetKeys(old(cs[j].keys[..]))
  {
    resetCount := ResetCurves(AllCurves(selected));
  }

  /** The loops of the reset operator, over the flattened list of curves. */
  method ResetCurves(cs: seq<FCurve>) returns (resetCount: nat)
    requires DistinctKeys(cs)
    modifies KeyArrays(cs)
    ensures resetCount == |cs|
    ensures forall j :: 0 <= j < |cs| ==> cs[j].keys[..] == ResetKeys(old(cs[j].keys[..]))
  {
    resetCount := 0;
    var j := 0;
    while j < |cs|
      invariant 0 <= j <= |cs| && resetCount == j
      invariant forall m :: 0 <= m < j ==> cs[m].keys[..] == ResetKeys(old(cs[m].keys[..]))
      invariant forall m :: j <= m < |cs| ==> cs[m].keys[..] == old(cs[m].keys[..])
    {
      MapKeys(cs[j].keys, (k: Keyframe) => k.WithModes(Linear, Vector, Vector));
      assert cs[j].keys[..] == ResetKeys(old(cs[j].keys[..]));
      resetCount := resetCount + 1;
      j := j + 1;
    }
  }
}
