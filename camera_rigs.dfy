/**
 * The camera rigs' keyframe logic: the push-in towards the scene centre, the
 * single-axis orbit of a pivot, and the camera shake's integer sample schedule
 * with its range-filtered LINEAR pass. Noise is a parameter.
 */
module CameraRigs {
  import opened Strings
  import opened Anim

  /** The number of shake samples, `max(10, duration // 5)`. */
  function ShakeSampleCount(duration: int): (n: int)
    ensures n >= 10 && n >= duration / 5
    ensures n == 10 || n == duration / 5
  {
    if 10 >= duration / 5 then 10 else duration / 5
  }

  /** The frame of sample `i`: `start + (i * duration) // samples`. */
  function SampleFrame(start: int, duration: int, samples: int, i: int): int
    requires samples > 0
  {
    // Dafny's `/` agrees with Python's `//` when the divisor is positive.
    start + (i * duration) / samples
  }

  /**
   * Sample `i`'s frame is the largest whose offset from `start`, times
   * `samples`, does not pass `i * duration`.
   */
  lemma SampleFrameFloor(start: int, duration: int, samples: int, i: int)
    requires samples > 0
    ensures var f := SampleFrame(start, duration, samples, i);
      samples * (f - start) <= i * duration < samples * (f - start + 1)
  {
    var q := (i * duration) / samples;
    assert samples * (q + 1) == samples * q + samples;
  }

  lemma MulMono(i: int, j: int, d: int)
    requires i <= j && d >= 0
    ensures i * d <= j * d
  {
    assert j * d - i * d == (j - i) * d;
  }

  lemma DivMono(a: int, b: int, d: int)
    requires a <= b && d > 0
    ensures a / d <= b / d
  {
    if a / d > b / d {
      MulMono(b / d + 1, a / d, d);
      assert false;
    }
  }

  lemma DivExact(k: int, d: int)
    requires d > 0
    ensures (d * k) / d == k
  {
    var q, r := (d * k) / d, (d * k) % d;
    assert d * k == d * q + r;
    assert (k - q) * d == r;
    if k - q >= 1 {
      MulMono(1, k - q, d);
      assert false;
    }
    if k - q <= -1 {
      MulMono(k - q, -1, d);
      assert false;
    }
  }

  lemma SampleMono(start: int, duration: int, samples: int, i: int, j: int)
    requires duration >= 0 && samples > 0 && 0 <= i <= j
    ensures SampleFrame(start, duration, samples, i) <= SampleFrame(start, duration, samples, j)
  {
    MulMono(i, j, duration);
    DivMono(i * duration, j * duration, samples);
  }

  lemma SampleEnd(start: int, duration: int, samples: int)
    requires samples > 0
    ensures SampleFrame(start, duration, samples, samples) == start + duration
  {
    DivExact(duration, samples);
  }

  /**
   * For a non-negative duration the sample frames run from `start` to
   * `start + duration`, never decrease, and all lie in that range.
   */
  lemma SampleSchedule(start: int, duration: int, samples: int)
    requires duration >= 0 && samples > 0
    ensures SampleFrame(start, duration, samples, 0) == start
    ensures SampleFrame(start, duration, samples, samples) == start + duration
    ensures forall i, j :: 0 <= i <= j <= samples ==>
      SampleFrame(start, duration, samples, i) <= SampleFrame(start, duration, samples, j)
    ensures forall i :: 0 <= i <= samples ==>
      start <= SampleFrame(start, duration, samples, i) <= start + duration
  {
    SampleEnd(start, duration, samples);
    forall i, j | 0 <= i <= j <= samples
      ensures SampleFrame(start, duration, samples, i) <= SampleFrame(start, duration, samples, j)
    {
      SampleMono(start, duration, samples, i, j);
    }
    forall i | 0 <= i <= samples
      ensures start <= SampleFrame(start, duration, samples, i) <= start + duration
    {
      SampleMono(start, duration, samples, 0, i);
      SampleMono(start, duration, samples, i, samples);
    }
  }

  /** The schedule of `add_shake_keyframes`, for its own sample count. */
  lemma ShakeSchedule(start: int, duration: int)
    requires duration >= 0
    ensures var n := ShakeSampleCount(duration);
      n >= 10
      && SampleFrame(start, duration, n, 0) == start
      && SampleFrame(start, duration, n, n) == start + duration
      && (forall i, j :: 0 <= i <= j <= n ==> SampleFrame(start, duration, n, i) <= SampleFrame(start, duration, n, j))
      && (forall i :: 0 <= i <= n ==> start <= SampleFrame(start, duration, n, i) <= start + duration)
  {
    SampleSchedule(start, duration, ShakeSampleCount(duration));
  }

  /**
   * The shake offset at `frame`: `noise` sampled along each axis at
   * `frame * speed * 0.1`, centred on 0 and scaled by the strength, half as
   * much on Z.
   */
  function ShakeOffset(frame: int, strength: real, speed: real, noise: Vec3 -> real): (o: Vec3)
    ensures strength >= 0.0 && (forall p :: 0.0 <= noise(p) <= 1.0) ==>
      -0.5 * strength <= o.x <= 0.5 * strength && -0.5 * strength <= o.y <= 0.5 * strength
      && -0.25 * strength <= o.z <= 0.25 * strength
  {
    var t := frame as real * speed * 0.1;
    var nx, ny, nz := noise(Vec3(t, 0.0, 0.0)), noise(Vec3(0.0, t, 0.0)), noise(Vec3(0.0, 0.0, t));
    CenteredBound(nx, strength);
    CenteredBound(ny, strength);
    CenteredBound(nz, strength);
    Vec3((nx - 0.5) * strength, (ny - 0.5) * strength, (nz - 0.5) * strength * 0.5)
  }

  lemma CenteredBound(n: real, s: real)
    ensures 0.0 <= n <= 1.0 && s >= 0.0 ==> -0.5 * s <= (n - 0.5) * s <= 0.5 * s
  {
    assert (n - 0.5) * s + 0.5 * s == n * s;
    assert 0.5 * s - (n - 0.5) * s == (1.0 - n) * s;
  }

  /** The key of sample `i`: the location on its sample frame, at the origin plus the offset there. */
  function SampleKey(origin: Vec3, start: int, duration: int, strength: real, speed: real, noise: Vec3 -> real,
                     i: int): KeyInsert
  {
    var f := SampleFrame(start, duration, ShakeSampleCount(duration), i);
    KeyInsert("location", f, VectorValue(origin.Add(ShakeOffset(f, strength, speed, noise))))
  }

  /** The keys of the first `m` samples, in order. */
  function SampleKeys(origin: Vec3, start: int, duration: int, strength: real, speed: real, noise: Vec3 -> real,
                      m: nat): (r: seq<KeyInsert>)
    ensures |r| == m
  {
    if m == 0 then []
    else SampleKeys(origin, start, duration, strength, speed, noise, m - 1)
         + [SampleKey(origin, start, duration, strength, speed, noise, m - 1)]
  }

  /** The keys of the sampling loop, one per sample frame. */
  function ShakeSamples(origin: Vec3, start: int, duration: int, strength: real, speed: real, noise: Vec3 -> real): (r: seq<KeyInsert>)
    ensures |r| == ShakeSampleCount(duration) + 1
  {
    SampleKeys(origin, start, duration, strength, speed, noise, ShakeSampleCount(duration) + 1)
  }

  lemma {:induction false} SampleKeysAt(origin: Vec3, start: int, duration: int, strength: real, speed: real,
                                        noise: Vec3 -> real, m: nat, i: int)
    requires 0 <= i < m
    ensures SampleKeys(origin, start, duration, strength, speed, noise, m)[i]
         == SampleKey(origin, start, duration, strength, speed, noise, i)
  {
    if i < m - 1 {
      SampleKeysAt(origin, start, duration, strength, speed, noise, m - 1, i);
    }
  }

  /** Sample `i` keys the location on its sample frame, at the origin plus the offset there. */
  lemma ShakeSampleAt(origin: Vec3, start: int, duration: int, strength: real, speed: real, noise: Vec3 -> real, i: int)
    requires 0 <= i <= ShakeSampleCount(duration)
    ensures var f := SampleFrame(start, duration, ShakeSampleCount(duration), i);
      ShakeSamples(origin, start, duration, strength, speed, noise)[i]
        == KeyInsert("location", f, VectorValue(origin.Add(ShakeOffset(f, strength, speed, noise))))
  {
    SampleKeysAt(origin, start, duration, strength, speed, noise, ShakeSampleCount(duration) + 1, i);
  }

  /** Sample `i`'s key is the location `location` on the frame `frame`. */
  lemma SampleKeyIs(origin: Vec3, start: int, duration: int, strength: real, speed: real, noise: Vec3 -> real,
                    i: int, frame: int, location: Vec3)
    requires frame == start + (i * duration) / ShakeSampleCount(duration)
    requires location == origin.Add(ShakeOffset(frame, strength, speed, noise))
    ensures SampleKey(origin, start, duration, strength, speed, noise, i) == KeyInsert("location", frame, VectorValue(location))
  {
  }

  /** A keyframe in the frame range `[lo, hi]` made LINEAR; any other left alone. */
  function LinearInRange(k: Keyframe, lo: int, hi: int): (r: Keyframe)
    ensures lo as real <= k.co.x <= hi as real ==> r == k.(interpolation := Linear)
    ensures !(lo as real <= k.co.x <= hi as real) ==> r == k
  {
    if lo as real <= k.co.x && k.co.x <= hi as real then k.(interpolation := Linear) else k
  }

  function LinearPassKeys(ks: seq<Keyframe>, lo: int, hi: int): (r: seq<Keyframe>)
    ensures |r| == |ks|
    ensures forall i :: 0 <= i < |ks| ==> r[i] == LinearInRange(ks[i], lo, hi)
  {
    seq(|ks|, i requires 0 <= i < |ks| => LinearInRange(ks[i], lo, hi))
  }

  /**
   * The LINEAR pass changes only interpolation, and only of keyframes in
   * range; a second pass changes nothing more.
   */
  lemma LinearPassFacts(ks: seq<Keyframe>, lo: int, hi: int)
    ensures var r := LinearPassKeys(ks, lo, hi);
      (forall i :: 0 <= i < |ks| ==>
         r[i].co == ks[i].co && r[i].handleLeft == ks[i].handleLeft && r[i].handleRight == ks[i].handleRight
         && r[i].leftType == ks[i].leftType && r[i].rightType == ks[i].rightType
         && (r[i].interpolation == Linear || r[i] == ks[i]))
      && LinearPassKeys(r, lo, hi) == r
  {
  }

  /** The curves after the LINEAR pass: location curves get `LinearPassKeys`, others are kept. */
  function LinearView(v: seq<Curve>, lo: int, hi: int): (r: seq<Curve>)
    ensures |r| == |v|
    ensures forall i :: 0 <= i < |v| ==>
      r[i] == if Contains(v[i].dataPath, "location") then v[i].(keys := LinearPassKeys(v[i].keys, lo, hi)) else v[i]
  {
    seq(|v|, i requires 0 <= i < |v| =>
      if Contains(v[i].dataPath, "location") then v[i].(keys := LinearPassKeys(v[i].keys, lo, hi)) else v[i])
  }

  /**
   * After the LINEAR pass the key on a (channel, frame) pair of a location
   * path is the old key made LINEAR when in range, and any other key is as
   * it was.
   */
  lemma LinearViewAt(v: seq<Curve>, lo: int, hi: int, path: string, c: int, g: int)
    ensures var k := KeyAt(v, path, c, g);
      KeyAt(LinearView(v, lo, hi), path, c, g)
        == if k.Some? && Contains(path, "location") then Some(LinearInRange(k.value, lo, hi)) else k
  {
    var r := LinearView(v, lo, hi);
    var p := ChannelIndex(v, path, c);
    ChannelIndexFirst(v, path, c);
    ChannelIndexIs(r, path, c, p);
    if p >= 0 {
      if Contains(path, "location") {
        KeyOfFramePointwise(v[p].keys, r[p].keys, (k: Keyframe) => LinearInRange(k, lo, hi), g);
      } else {
        KeyOfFramePointwise(v[p].keys, r[p].keys, (k: Keyframe) => k, g);
      }
    }
  }

  /**
   * The last loop of `add_shake_keyframes`: in every curve of the camera's
   * action whose data path contains "location", the keyframes between `lo`
   * and `hi` become LINEAR.
   */
  method LinearPass(camera: SceneObject, lo: int, hi: int)
    requires DistinctKeys(ActionCurves(camera))
    modifies KeyArrays(ActionCurves(camera))
    ensures unchanged(camera)
    ensures CurvesOf(camera) == LinearView(old(CurvesOf(camera)), lo, hi)
  {
    var cs := ActionCurves(camera);
    var j := 0;
    while j < |cs|
      invariant 0 <= j <= |cs|
      invariant forall m :: 0 <= m < j ==>
        cs[m].keys[..] == if Contains(cs[m].dataPath, "location") then LinearPassKeys(old(cs[m].keys[..]), lo, hi)
                          else old(cs[m].keys[..])
      invariant forall m :: j <= m < |cs| ==> cs[m].keys[..] == old(cs[m].keys[..])
    {
      if Contains(cs[j].dataPath, "location") {
        MapKeys(cs[j].keys, (k: Keyframe) => LinearInRange(k, lo, hi));
        assert cs[j].keys[..] == LinearPassKeys(old(cs[j].keys[..]), lo, hi);
      }
      j := j + 1;
    }
  }

  /** Every key `add_shake_keyframes` inserts: the samples, then the origin at the end frame. */
  function ShakeKeys(origin: Vec3, start: int, duration: int, strength: real, speed: real,
                     noise: Vec3 -> real): seq<KeyInsert>
  {
    ShakeSamples(origin, start, duration, strength, speed, noise)
      + [KeyInsert("location", start + duration, VectorValue(origin))]
  }

  /** The shake keys are the samples followed by the closing key at `endFrame`. */
  lemma ShakeKeysSplit(origin: Vec3, start: int, duration: int, strength: real, speed: real,
                       noise: Vec3 -> real, endFrame: int)
    requires endFrame == start + duration
    ensures ShakeKeys(origin, start, duration, strength, speed, noise)
      == ShakeSamples(origin, start, duration, strength, speed, noise) + [KeyInsert("location", endFrame, VectorValue(origin))]
  {
  }

  /**
   * The sampling loop of `add_shake_keyframes`: for `i` in
   * `0 .. shake_samples`, the location is set to `origin` plus the offset at
   * the sample frame and keyed there.
   */
  method ShakeSampleLoop(camera: SceneObject, origin: Vec3, start: int, duration: int, strength: real, speed: real,
                         noise: Vec3 -> real)
    requires DistinctKeys(ActionCurves(camera))
    modifies camera`location, camera`keyLog, camera`animation
    ensures camera.keyLog == old(camera.keyLog) + ShakeSamples(origin, start, duration, strength, speed, noise)
    ensures DistinctKeys(ActionCurves(camera))
    ensures CurvesOf(camera) == InsertLog(old(CurvesOf(camera)), ShakeSamples(origin, start, duration, strength, speed, noise))
    ensures forall c :: c in ActionCurves(camera) ==> c.keys in old(KeyArrays(ActionCurves(camera))) || fresh(c.keys)
  {
    var shakeSamples := ShakeSampleCount(duration);
    ghost var v0, k0 := CurvesOf(camera), camera.keyLog;
    ghost var done: seq<KeyInsert> := [];
    var i := 0;
    while i < shakeSamples + 1
      invariant 0 <= i <= shakeSamples + 1
      invariant done == SampleKeys(origin, start, duration, strength, speed, noise, i)
      invariant camera.keyLog == k0 + done
      invariant DistinctKeys(ActionCurves(camera))
      invariant CurvesOf(camera) == InsertLog(v0, done)
      invariant forall c :: c in ActionCurves(camera) ==> c.keys in old(KeyArrays(ActionCurves(camera))) || fresh(c.keys)
    {
      ghost var key := SampleKey(origin, start, duration, strength, speed, noise, i);
      ShakeSampleStep(camera, origin, start, duration, strength, speed, noise, i);
      LogAppendAssoc(k0, done, [key]);
      InsertLogSnoc(v0, done, key);
      done := done + [key];
      i := i + 1;
    }
  }

  /** One pass of the sampling loop: the location of sample `i` is set and keyed on its frame. */
  method ShakeSampleStep(camera: SceneObject, origin: Vec3, start: int, duration: int, strength: real, speed: real,
                         noise: Vec3 -> real, i: int)
    requires DistinctKeys(ActionCurves(camera))
    modifies camera`location, camera`keyLog, camera`animation
    ensures camera.keyLog == old(camera.keyLog) + [SampleKey(origin, start, duration, strength, speed, noise, i)]
    ensures DistinctKeys(ActionCurves(camera))
    ensures CurvesOf(camera) == InsertEntry(old(CurvesOf(camera)), SampleKey(origin, start, duration, strength, speed, noise, i))
    ensures forall c :: c in ActionCurves(camera) ==> c.keys in old(KeyArrays(ActionCurves(camera))) || fresh(c.keys)
  {
    var frame := start + (i * duration) / ShakeSampleCount(duration);
    var location := origin.Add(ShakeOffset(frame, strength, speed, noise));
    SampleKeyIs(origin, start, duration, strength, speed, noise, i, frame, location);
    camera.KeyLocation(frame, location);
  }

  /**
   * The key insertions of `add_shake_keyframes`: the sampling loop, then a
   * key at `start + duration` back at the original location.
   */
  method ShakeInserts(camera: SceneObject, start: int, duration: int, strength: real, speed: real,
                      noise: Vec3 -> real)
    requires DistinctKeys(ActionCurves(camera))
    modifies camera`location, camera`keyLog, camera`animation
    ensures camera.location == old(camera.location)
    ensures camera.keyLog == old(camera.keyLog) + ShakeKeys(old(camera.location), start, duration, strength, speed, noise)
    ensures DistinctKeys(ActionCurves(camera))
    ensures CurvesOf(camera) == InsertLog(old(CurvesOf(camera)), ShakeKeys(old(camera.location), start, duration, strength, speed, noise))
    ensures forall c :: c in ActionCurves(camera) ==> c.keys in old(KeyArrays(ActionCurves(camera))) || fresh(c.keys)
  {
    var originalLocation := camera.location;
    ghost var k0 := camera.keyLog;
    ghost var v0 := CurvesOf(camera);
    ghost var samples := ShakeSamples(originalLocation, start, duration, strength, speed, noise);
    ShakeSampleLoop(camera, originalLocation, start, duration, strength, speed, noise);
    ghost var v1 := CurvesOf(camera);
    ghost var k1 := camera.keyLog;
    var endFrame := start + duration;
    camera.KeyLocation(endFrame, originalLocation);
    ghost var end := KeyInsert("location", endFrame, VectorValue(originalLocation));
    assert camera.keyLog == k1 + [end];
    assert CurvesOf(camera) == InsertEntry(v1, end);
    ShakeKeysSplit(originalLocation, start, duration, strength, speed, noise, endFrame);
    LogAppendAssoc(k0, samples, [end]);
    InsertLogSnoc(v0, samples, end);
  }

  /**
   * `add_shake_keyframes`: one location key per sample frame at the original
   * location plus the noise offset, then a key at `start + duration` back at
   * the original location, then the LINEAR pass over the camera's curves.
   */
  method AddShakeKeyframes(camera: SceneObject, start: int, duration: int, strength: real, speed: real,
                           noise: Vec3 -> real)
    requires DistinctKeys(ActionCurves(camera))
    modifies camera`location, camera`keyLog, camera`animation, KeyArrays(ActionCurves(camera))
    ensures camera.location == old(camera.location)
    ensures camera.keyLog == old(camera.keyLog) + ShakeKeys(old(camera.location), start, duration, strength, speed, noise)
    ensures camera.animation.Action?
    ensures CurvesOf(camera)
      == LinearView(InsertLog(old(CurvesOf(camera)), ShakeKeys(old(camera.location), start, duration, strength, speed, noise)),
                    start, start + duration)
  {
    ShakeInserts(camera, start, duration, strength, speed, noise);
    LinearPass(camera, start, start + duration);
  }

  /** A location key of a log, inside the pass's frame range, is LINEAR after the pass. */
  lemma LogKeyLinear(v: seq<Curve>, log: seq<KeyInsert>, lo: int, hi: int, c: int, i: int)
    requires 0 <= c < 3 && 0 <= i < |log|
    requires log[i].dataPath == "location" && log[i].value.VectorValue? && lo <= log[i].frame <= hi
    ensures var k := KeyAt(LinearView(InsertLog(v, log), lo, hi), "location", c, log[i].frame);
      k.Some? && k.value.interpolation == Linear
  {
    var u := InsertLog(v, log);
    var f := log[i].frame;
    InsertLogKeys(v, log, i, c);
    var k := KeyAt(u, "location", c, f);
    assert k.value.co.x == f as real;
    ContainsSelf("location");
    LinearViewAt(u, lo, hi, "location", c, f);
  }

  /** Entry `i` of the shake keys is the location key of sample `i`, inside the shake's frame range. */
  lemma ShakeKeyAt(origin: Vec3, start: int, duration: int, strength: real, speed: real, noise: Vec3 -> real, i: int)
    requires duration >= 0 && 0 <= i <= ShakeSampleCount(duration)
    ensures var e := ShakeKeys(origin, start, duration, strength, speed, noise)[i];
      e.dataPath == "location" && e.value.VectorValue?
      && e.frame == SampleFrame(start, duration, ShakeSampleCount(duration), i)
      && start <= e.frame <= start + duration
  {
    var n := ShakeSampleCount(duration);
    SampleMono(start, duration, n, 0, i);
    SampleMono(start, duration, n, i, n);
    SampleEnd(start, duration, n);
    ShakeSampleAt(origin, start, duration, strength, speed, noise, i);
  }

  /** A sample key of the shake is on the camera's location curves, LINEAR after the pass. */
  lemma ShakeSampleKey(v: seq<Curve>, origin: Vec3, start: int, duration: int, strength: real, speed: real,
                       noise: Vec3 -> real, c: int, i: int)
    requires duration >= 0 && 0 <= c < 3 && 0 <= i <= ShakeSampleCount(duration)
    ensures var r := LinearView(InsertLog(v, ShakeKeys(origin, start, duration, strength, speed, noise)),
                                start, start + duration);
      var k := KeyAt(r, "location", c, SampleFrame(start, duration, ShakeSampleCount(duration), i));
      k.Some? && k.value.interpolation == Linear
  {
    ShakeKeyAt(origin, start, duration, strength, speed, noise, i);
    LogKeyLinear(v, ShakeKeys(origin, start, duration, strength, speed, noise), start, start + duration, c, i);
  }

  /** The last key of a log is on the location curves after the LINEAR pass, with its own value. */
  lemma LastKeyAfterPass(v: seq<Curve>, log: seq<KeyInsert>, lo: int, hi: int, f: int, a: Vec3, c: int)
    requires 0 <= c < 3
    ensures var e := KeyAt(LinearView(InsertLog(v, log + [KeyInsert("location", f, VectorValue(a))]), lo, hi),
                           "location", c, f);
      e.Some? && e.value.co == Vec2(f as real, Component(a, c))
  {
    var log' := log + [KeyInsert("location", f, VectorValue(a))];
    ContainsSelf("location");
    InsertLogKeys(v, log', |log|, c);
    LinearViewAt(InsertLog(v, log'), lo, hi, "location", c, f);
  }

  /** The end key of the shake holds the original location. */
  lemma ShakeEndKey(v: seq<Curve>, origin: Vec3, start: int, duration: int, strength: real, speed: real,
                    noise: Vec3 -> real, c: int)
    requires 0 <= c < 3
    ensures var r := LinearView(InsertLog(v, ShakeKeys(origin, start, duration, strength, speed, noise)),
                                start, start + duration);
      var e := KeyAt(r, "location", c, start + duration);
      e.Some? && e.value.co == Vec2((start + duration) as real, Component(origin, c))
  {
    var hi := start + duration;
    var samples := ShakeSamples(origin, start, duration, strength, speed, noise);
    var keys := ShakeKeys(origin, start, duration, strength, speed, noise);
    ShakeKeysSplit(origin, start, duration, strength, speed, noise, hi);
    assert keys == samples + [KeyInsert("location", hi, VectorValue(origin))];
    LastKeyAfterPass(v, samples, start, hi, hi, origin, c);
  }

  /**
   * What the shake leaves on each location channel: a LINEAR key on every
   * sample frame, and on the end frame a key holding the original location.
   * The duration property's minimum (10) makes the duration non-negative.
   */
  lemma ShakeCurves(v: seq<Curve>, origin: Vec3, start: int, duration: int, strength: real, speed: real,
                    noise: Vec3 -> real, c: int)
    requires duration >= 0 && 0 <= c < 3
    ensures var r := LinearView(InsertLog(v, ShakeKeys(origin, start, duration, strength, speed, noise)),
                                start, start + duration);
      var n := ShakeSampleCount(duration);
      (forall i :: 0 <= i <= n ==>
         var k := KeyAt(r, "location", c, SampleFrame(start, duration, n, i));
         k.Some? && k.value.interpolation == Linear)
      && var e := KeyAt(r, "location", c, start + duration);
         e.Some? && e.value.co == Vec2((start + duration) as real, Component(origin, c))
  {
    forall i | 0 <= i <= ShakeSampleCount(duration)
      ensures var r := LinearView(InsertLog(v, ShakeKeys(origin, start, duration, strength, speed, noise)),
                                  start, start + duration);
        var k := KeyAt(r, "location", c, SampleFrame(start, duration, ShakeSampleCount(duration), i));
        k.Some? && k.value.interpolation == Linear
    {
      ShakeSampleKey(v, origin, start, duration, strength, speed, noise, c, i);
    }
    ShakeEndKey(v, origin, start, duration, strength, speed, noise, c);
  }

  /** `NORENT_OT_CameraShake.execute`, given the scene camera and current frame. */
  method CameraShake(camera: SceneObject?, current: int, duration: int, strength: real, speed: real,
                     noise: Vec3 -> real) returns (status: Status)
    requires camera != null ==> DistinctKeys(ActionCurves(camera))
    modifies if camera == null then {} else {camera}, if camera == null then {} else KeyArrays(ActionCurves(camera))
    ensures status == if camera == null then Cancelled else Finished
    ensures camera != null ==>
      camera.location == old(camera.location)
      && camera.keyLog == old(camera.keyLog) + ShakeKeys(old(camera.location), current, duration, strength, speed, noise)
      && CurvesOf(camera)
         == LinearView(InsertLog(old(CurvesOf(camera)), ShakeKeys(old(camera.location), current, duration, strength, speed, noise)),
                       current, current + duration)
      && unchanged(camera`name, camera`parent, camera`rotation, camera`scale, camera`body, camera`dataKeyLog)
  {
    if camera == null {
      return Cancelled;
    }
    AddShakeKeyframes(camera, current, duration, strength, speed, noise);
    return Finished;
  }

  const Pi: real := 3.141592653589793

  /** `math.radians`. */
  function Radians(degrees: real): real {
    degrees * Pi / 180.0
  }

  /** 180 degrees are `Pi` radians, and the conversion is linear. */
  lemma RadiansScale(degrees: real)
    ensures Radians(degrees) * 180.0 == degrees * Pi
    ensures Radians(180.0) == Pi && Radians(-degrees) == -Radians(degrees)
  {
  }

  /**
   * The unit vector of the orbit axis; any value but "X" or "Y" means Z:
   * non-negative components summing to 1, the one along the named axis 1.
   */
  function AxisVector(axis: string): (u: Vec3)
    ensures u.x >= 0.0 && u.y >= 0.0 && u.z >= 0.0 && u.x + u.y + u.z == 1.0
    ensures (u.x == 1.0 <==> axis == "X") && (u.y == 1.0 <==> axis == "Y")
    ensures u.z == 1.0 <==> axis != "X" && axis != "Y"
  {
    if axis == "X" then Vec3(1.0, 0.0, 0.0)
    else if axis == "Y" then Vec3(0.0, 1.0, 0.0)
    else Vec3(0.0, 0.0, 1.0)
  }

  /**
   * The orbit's end rotation: the current rotation with the angle, in
   * radians, added on one axis.
   */
  method EndRotation(current: Vec3, axis: string, angleDegrees: real) returns (endRotation: Vec3)
    ensures endRotation == current.Add(AxisVector(axis).Scale(Radians(angleDegrees)))
    ensures axis == "X" ==> endRotation.y == current.y && endRotation.z == current.z
    ensures axis == "Y" ==> endRotation.x == current.x && endRotation.z == current.z
    ensures axis != "X" && axis != "Y" ==> endRotation.x == current.x && endRotation.y == current.y
  {
    var angleRad := Radians(angleDegrees);
    endRotation := current;
    if axis == "X" {
      endRotation := endRotation.(x := endRotation.x + angleRad);
    } else if axis == "Y" {
      endRotation := endRotation.(y := endRotation.y + angleRad);
    } else {
      endRotation := endRotation.(z := endRotation.z + angleRad);
    }
  }

  /**
   * `NORENT_OT_CameraRotate.execute`: a new empty pivot at the origin becomes
   * the camera's parent and is keyed on its rotation twice, the current
   * rotation at `current` and the end rotation `duration` frames later; the
   * easing loop then makes its keys BEZIER with AUTO handles. The pivot is
   * new, so it has no curves to remove, and the two inserts create its three
   * rotation curves.
   */
  method CameraRotate(camera: SceneObject?, current: int, duration: int, angle: real, axis: string)
    returns (status: Status, pivot: SceneObject?)
    modifies camera
    ensures camera == null ==> status == Cancelled && pivot == null
    ensures camera != null ==>
      var zero := Vec3(0.0, 0.0, 0.0); var end := zero.Add(AxisVector(axis).Scale(Radians(angle)));
      status == Finished && pivot != null && fresh(pivot)
      && camera.parent == pivot && pivot.name == "NORENT_Camera_Pivot" && pivot.kind == EmptyObject
      && pivot.location == zero && pivot.rotation == end
      && pivot.keyLog == KeyPair("rotation_euler", current, zero, current + duration, end)
      && CurvesOf(pivot) == EaseView(InsertLog([], pivot.keyLog), "rotation_euler", Bezier, Auto, Auto)
      && |CurvesOf(pivot)| == 3
      && PairKeyed(CurvesOf(pivot), 0, "rotation_euler", current, zero, current + duration, end, Bezier, Auto, Auto)
      && unchanged(camera`name, camera`location, camera`rotation, camera`scale, camera`body,
                   camera`animation, camera`keyLog, camera`dataKeyLog)
  {
    if camera == null {
      return Cancelled, null;
    }
    var p := new SceneObject(EmptyObject, "NORENT_Camera_Pivot", NoAnimationData);
    camera.parent := p;
    var currentRotation := p.rotation;
    var endRotation := EndRotation(currentRotation, axis, angle);
    p.KeyRotationPairEased(current, currentRotation, current + duration, endRotation, Bezier, Auto, Auto);
    return Finished, p;
  }

  /** 3-D counterpart of the normalisation: unit vector along `v`, zero for zero. */
  function Normalized3(v: Vec3, len: Vec3 -> real): Vec3 {
    var l := len(v);
    if l == 0.0 then Vec3(0.0, 0.0, 0.0) else v.Scale(1.0 / l)
  }

  /** With `len` a length function, `Normalized3` is zero for zero and a unit vector along `v` otherwise. */
  lemma Normalized3Facts(v: Vec3, len: Vec3 -> real)
    requires IsLength3(len)
    ensures v == Vec3(0.0, 0.0, 0.0) ==> Normalized3(v, len) == v
    ensures v != Vec3(0.0, 0.0, 0.0) ==>
      var u := Normalized3(v, len);
      Dot3(u, u) == 1.0 && Dot3(u, v) == len(v) > 0.0
  {
    var l := len(v);
    assert l * l == Dot3(v, v);
    UnitFacts3(v, l);
  }

  lemma ScaleFacts3(u: Vec3, k: real, d: Vec3)
    ensures Dot3(u.Scale(k), u.Scale(k)) == k * k * Dot3(u, u)
    ensures Dot3(u.Scale(k), d) == k * Dot3(u, d)
  {
  }

  lemma UnitFacts3(v: Vec3, l: real)
    ensures l > 0.0 && l * l == Dot3(v, v) ==>
      var u := v.Scale(1.0 / l);
      Dot3(u, u) == 1.0 && Dot3(u, v) == l
  {
    if l > 0.0 && l * l == Dot3(v, v) {
      var inv := 1.0 / l;
      assert l * inv == 1.0;
      ScaleFacts3(v, inv, v);
      calc {
        Dot3(v.Scale(inv), v.Scale(inv));
        inv * inv * Dot3(v, v);
        inv * inv * (l * l);
        (inv * l) * (inv * l);
        1.0;
      }
      calc {
        Dot3(v.Scale(inv), v);
        inv * Dot3(v, v);
        inv * (l * l);
        (inv * l) * l;
        l;
      }
    }
  }

  /**
   * The push-in end location: `distance` along the direction from the camera
   * towards the scene centre, so at squared distance `distance²` from the
   * start and, with the direction `d = -start`, with `(e - start) · d` equal
   * to `distance * |d|`; a camera at the centre stays put.
   */
  function PushEnd(start: Vec3, distance: real, len: Vec3 -> real): Vec3 {
    var direction := Normalized3(Vec3(0.0, 0.0, 0.0).Sub(start), len);
    start.Add(direction.Scale(distance))
  }

  /**
   * With `len` a length function, the push-in end lies at squared distance
   * `distance²` from the start and, with the direction `d = -start`, has
   * `(e - start) · d` equal to `distance * |d|`; a camera at the centre
   * stays put.
   */
  lemma PushEndFacts(start: Vec3, distance: real, len: Vec3 -> real)
    requires IsLength3(len)
    ensures start == Vec3(0.0, 0.0, 0.0) ==> PushEnd(start, distance, len) == start
    ensures var e, d := PushEnd(start, distance, len), Vec3(0.0, 0.0, 0.0).Sub(start);
      start != Vec3(0.0, 0.0, 0.0) ==>
        Dot3(e.Sub(start), e.Sub(start)) == distance * distance && Dot3(e.Sub(start), d) == distance * len(d)
  {
    var d := Vec3(0.0, 0.0, 0.0).Sub(start);
    var u := Normalized3(d, len);
    assert PushEnd(start, distance, len) == start.Add(u.Scale(distance));
    Normalized3Facts(d, len);
    if start == Vec3(0.0, 0.0, 0.0) {
      assert d == start;
    } else {
      assert d != Vec3(0.0, 0.0, 0.0) by {
        assert start == Vec3(0.0, 0.0, 0.0).Sub(d);
      }
      MoveFacts3(start, u, distance, d);
    }
  }

  lemma MoveFacts3(start: Vec3, u: Vec3, k: real, d: Vec3)
    ensures var e := start.Add(u.Scale(k));
      e.Sub(start) == u.Scale(k)
      && Dot3(e.Sub(start), e.Sub(start)) == k * k * Dot3(u, u)
      && Dot3(e.Sub(start), d) == k * Dot3(u, d)
  {
    var e := start.Add(u.Scale(k));
    assert e.Sub(start) == u.Scale(k);
    ScaleFacts3(u, k, d);
  }

  /**
   * `NORENT_OT_CameraPushIn.execute`: the camera's animation data is cleared,
   * then its location is keyed at the start location on `current` and at the
   * push-in end location `duration` frames later, and the easing loop makes
   * those keys BEZIER with AUTO handles. The clear leaves no curve, so the
   * inserts create the three location curves.
   */
  method CameraPushIn(camera: SceneObject?, current: int, duration: int, distance: real, len: Vec3 -> real)
    returns (status: Status)
    modifies camera
    ensures camera == null ==> status == Cancelled
    ensures camera != null ==>
      var start, end := old(camera.location), PushEnd(old(camera.location), distance, len);
      status == Finished && camera.location == end
      && camera.keyLog == KeyPair("location", current, start, current + duration, end)
      && CurvesOf(camera) == EaseView(InsertLog([], camera.keyLog), "location", Bezier, Auto, Auto)
      && |CurvesOf(camera)| == 3
      && PairKeyed(CurvesOf(camera), 0, "location", current, start, current + duration, end, Bezier, Auto, Auto)
      && unchanged(camera`name, camera`parent, camera`rotation, camera`scale, camera`body, camera`dataKeyLog)
  {
    if camera == null {
      return Cancelled;
    }
    var startLocation := camera.location;
    var endLocation := PushEnd(startLocation, distance, len);
    camera.ClearAnimationData();
    assert CurvesOf(camera) == [];
    camera.KeyLocationPairEased(current, startLocation, current + duration, endLocation, Bezier, Auto, Auto);
    assert camera.keyLog == KeyPair("location", current, startLocation, current + duration, endLocation);
    return Finished;
  }
}
