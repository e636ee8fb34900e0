/**
 * The text effects' keyframe logic: the typewriter reveal of growing
 * prefixes, the word-by-word reveal, the wipe and slide position animations
 * with their direction tables, the bounce scale keys, and the easing passes
 * that follow them.
 *
 * A text object is a `SceneObject` whose `body` is its text; the body keys
 * the effects request on its data block are recorded in the object's
 * `dataKeyLog`, which clearing the object's animation data leaves alone.
 */
module TextFx {
  import opened Strings
  import opened Anim

  /** The frame of the `i`-th typewriter key: `int(i / (speed / 30)) + 1`. */
  function TypewriterFrame(i: int, speed: real): int
    requires speed != 0.0
  {
    Trunc(i as real / (speed / 30.0)) + 1
  }

  /**
   * For a positive speed and `i >= 0`, the frame of key `i` is one more than
   * the whole number of frames `i` characters take at `speed / 30`
   * characters per frame: `(f - 1) * speed <= 30 * i < f * speed`.
   */
  lemma TypewriterFrameFloor(i: int, speed: real)
    requires speed > 0.0 && i >= 0
    ensures TypewriterFrame(i, speed) >= 1
    ensures (TypewriterFrame(i, speed) - 1) as real * speed <= 30.0 * i as real
    ensures 30.0 * i as real < TypewriterFrame(i, speed) as real * speed
  {
    var q := i as real / (speed / 30.0);
    var f := TypewriterFrame(i, speed);
    assert q * speed == 30.0 * i as real;
    assert (f - 1) as real <= q < f as real;
    ScaleLe((f - 1) as real, q, speed);
    ScaleLt(q, f as real, speed);
    assert 30.0 * i as real < f as real * speed;
  }

  lemma ScaleLe(a: real, b: real, k: real)
    requires a <= b && k > 0.0
    ensures a * k <= b * k
  {
    assert b * k - a * k == (b - a) * k;
  }

  lemma ScaleLt(a: real, b: real, k: real)
    requires a < b && k > 0.0
    ensures a * k < b * k
  {
    assert b * k - a * k == (b - a) * k;
  }

  /** The first typewriter key is at frame 1, and later keys are never earlier. */
  lemma {:induction false} TypewriterFrames(speed: real, i: int, j: int)
    requires speed > 0.0 && 0 <= i <= j
    ensures TypewriterFrame(0, speed) == 1
    ensures TypewriterFrame(i, speed) <= TypewriterFrame(j, speed)
  {
    var c := speed / 30.0;
    assert 0.0 <= i as real / c <= j as real / c;
    TruncMono(i as real / c, j as real / c);
  }

  /** The keys `create_typewriter_effect` inserts: key `i` shows the first `i` characters. */
  function TypewriterKeys(text: string, speed: real): (r: seq<KeyInsert>)
    requires speed != 0.0
    ensures |r| == |text| + 1
    ensures forall i :: 0 <= i < |r| ==>
      r[i] == KeyInsert("body", TypewriterFrame(i, speed), TextValue(text[..i]))
  {
    seq(|text| + 1, i requires 0 <= i <= |text| => KeyInsert("body", TypewriterFrame(i, speed), TextValue(text[..i])))
  }

  /**
   * The typewriter bodies are prefixes of the text of strictly increasing
   * length, from the empty string to the whole text.
   */
  lemma TypewriterReveal(text: string, speed: real)
    requires speed != 0.0
    ensures var r := TypewriterKeys(text, speed);
      r[0].value == TextValue("") && r[|text|].value == TextValue(text)
      && forall i :: 0 <= i < |r| ==>
        r[i].value.TextValue? && StartsWith(text, r[i].value.s) && |r[i].value.s| == i
  {
    assert text[..|text|] == text;
  }

  /**
   * `create_typewriter_effect`: for each `i` from 0 to `len(text)` the body is
   * set to the first `i` characters and keyed; the body ends as the whole text.
   */
  method CreateTypewriterEffect(textObj: SceneObject, text: string, speed: real)
    requires speed != 0.0
    modifies textObj`body, textObj`dataKeyLog
    ensures textObj.body == text
    ensures textObj.dataKeyLog == old(textObj.dataKeyLog) + TypewriterKeys(text, speed)
  {
    var charsPerFrame := speed / 30.0;
    var totalChars := |text|;
    ghost var keys := TypewriterKeys(text, speed);
    var i := 0;
    while i < totalChars + 1
      invariant 0 <= i <= totalChars + 1
      invariant textObj.dataKeyLog == old(textObj.dataKeyLog) + keys[..i]
      invariant i > 0 ==> textObj.body == text[..i - 1]
    {
      var frame := Trunc(i as real / charsPerFrame) + 1;
      textObj.body := text[..i];
      textObj.KeyframeInsertBody(frame);
      assert keys[..i + 1] == keys[..i] + [keys[i]];
      i := i + 1;
    }
    assert keys[..i] == keys;
    assert text[..totalChars] == text;
  }

  /** The keys of the word animation: key `i` shows the first `i` words joined by spaces. */
  function WordKeys(words: seq<string>, current: int, framesPerWord: int): (r: seq<KeyInsert>)
    ensures |r| == |words| + 1
    ensures forall i :: 0 <= i < |r| ==>
      r[i] == KeyInsert("body", current + i * framesPerWord, TextValue(Join(words[..i])))
  {
    seq(|words| + 1, i requires 0 <= i <= |words| =>
      KeyInsert("body", current + i * framesPerWord, TextValue(Join(words[..i]))))
  }

  /**
   * The word reveal: each body extends the previous one and is strictly
   * longer, the first is empty, the last splits back into the words, and the
   * frames grow by `framesPerWord` per word.
   */
  lemma WordReveal(body: string, current: int, framesPerWord: int)
    ensures var words := Split(body);
      var r := WordKeys(words, current, framesPerWord);
      r[0].value == TextValue("")
      && Split(r[|words|].value.s) == words
      && (forall i, j :: 0 <= i < j < |r| ==>
            StartsWith(r[j].value.s, r[i].value.s) && |r[i].value.s| < |r[j].value.s|
            && r[j].frame - r[i].frame == (j - i) * framesPerWord)
  {
    var words := Split(body);
    var r := WordKeys(words, current, framesPerWord);
    assert words[..0] == [];
    assert words[..|words|] == words;
    SplitJoin(words);
    forall i, j | 0 <= i < j < |r|
      ensures StartsWith(r[j].value.s, r[i].value.s) && |r[i].value.s| < |r[j].value.s|
      ensures r[j].frame - r[i].frame == (j - i) * framesPerWord
    {
      JoinPrefixGrows(words, i, j);
      assert (current + j * framesPerWord) - (current + i * framesPerWord) == (j - i) * framesPerWord;
    }
  }

  /**
   * `NORENT_OT_TextAnimateWords.execute`: cancelled, with nothing changed,
   * unless the object is a text object whose body has at least two words;
   * otherwise its animation data is cleared and one body key per word prefix
   * is inserted on its data block, `int(delay * 30)` frames apart.
   */
  method TextAnimateWords(obj: SceneObject?, current: int, delay: real) returns (status: Status)
    modifies obj
    ensures var ok := obj != null && obj.kind == Font && |Split(old(obj.body))| > 1;
      status == (if ok then Finished else Cancelled)
      && (!ok ==> obj == null || unchanged(obj))
      && (ok ==>
            obj.animation == NoAnimationData && obj.keyLog == []
            && obj.dataKeyLog == old(obj.dataKeyLog) + WordKeys(Split(old(obj.body)), current, Trunc(delay * 30.0))
            && obj.body == Join(Split(old(obj.body)))
            && unchanged(obj`name, obj`parent, obj`location, obj`rotation, obj`scale))
  {
    if obj == null || obj.kind != Font {
      return Cancelled;
    }
    var textContent := obj.body;
    var words := Split(textContent);
    if |words| <= 1 {
      return Cancelled;
    }
    obj.ClearAnimationData();
    var framesPerWord := Trunc(delay * 30.0);
    InsertWordKeys(obj, words, current, framesPerWord);
    return Finished;
  }

  /**
   * The word loop: for each `i` from 0 to the number of words, the body is
   * set to the first `i` words and keyed at `current + i * framesPerWord`.
   */
  method InsertWordKeys(obj: SceneObject, words: seq<string>, current: int, framesPerWord: int)
    modifies obj`body, obj`dataKeyLog
    ensures obj.dataKeyLog == old(obj.dataKeyLog) + WordKeys(words, current, framesPerWord)
    ensures obj.body == Join(words)
  {
    ghost var keys := WordKeys(words, current, framesPerWord);
    var i := 0;
    while i < |words| + 1
      invariant 0 <= i <= |words| + 1
      invariant obj.dataKeyLog == old(obj.dataKeyLog) + keys[..i]
      invariant i > 0 ==> obj.body == Join(words[..i - 1])
    {
      var frame := current + i * framesPerWord;
      var partialText := Join(words[..i]);
      assert keys[i] == KeyInsert("body", frame, TextValue(partialText));
      obj.body := partialText;
      obj.KeyframeInsertBody(frame);
      assert keys[..i + 1] == keys[..i] + [keys[i]];
      i := i + 1;
    }
    assert keys[..i] == keys;
    assert words[..|words|] == words;
  }

  /** The wipe's start offset from the resting location, by direction. */
  function WipeOffset(direction: string): (o: Vec3)
    ensures Dot3(o, o) == 25.0
  {
    if direction == "UP" then Vec3(0.0, -5.0, 0.0)
    else if direction == "DOWN" then Vec3(0.0, 5.0, 0.0)
    else if direction == "LEFT" then Vec3(5.0, 0.0, 0.0)
    else Vec3(-5.0, 0.0, 0.0)
  }

  /** The slide's start offset from the current location, by direction. */
  function SlideOffset(direction: string): (o: Vec3)
    ensures Dot3(o, o) == 100.0
  {
    var offsetDistance := 10.0;
    if direction == "LEFT" then Vec3(-offsetDistance, 0.0, 0.0)
    else if direction == "RIGHT" then Vec3(offsetDistance, 0.0, 0.0)
    else if direction == "UP" then Vec3(0.0, offsetDistance, 0.0)
    else Vec3(0.0, -offsetDistance, 0.0)
  }

  /**
   * For the four named directions the two tables share the axis and have
   * opposite senses: a wipe names the way the text moves, a slide the side
   * it comes from. They differ on other values (wipe falls back to RIGHT,
   * slide to DOWN).
   */
  lemma WipeSlideOpposite(direction: string)
    requires direction == "UP" || direction == "DOWN" || direction == "LEFT" || direction == "RIGHT"
    ensures WipeOffset(direction) == SlideOffset(direction).Scale(-0.5)
  {
    assert "UP" != "DOWN" && "UP" != "LEFT" && "UP" != "RIGHT";
    assert "DOWN" != "LEFT" && "DOWN" != "RIGHT" && "LEFT" != "RIGHT";
  }

  /** The wipe's two location keys: at frame 1 from the offset location, at 45 at `loc`. */
  function WipeKeys(loc: Vec3, direction: string): seq<KeyInsert> {
    KeyPair("location", 1, loc.Add(WipeOffset(direction)), 45, loc)
  }

  /**
   * After the wipe's inserts and easing loop, every location channel has a
   * key at frame 1 holding that channel of the offset location and a key at
   * frame 45 holding that channel of `loc`, both BEZIER with VECTOR/AUTO
   * handles.
   */
  lemma WipeCurves(v: seq<Curve>, loc: Vec3, direction: string)
    ensures var r := EaseView(InsertLog(v, WipeKeys(loc, direction)), "location", Bezier, Vector, Auto);
      forall c :: 0 <= c < 3 ==>
        HasKey(r, "location", c, 1, Component(loc.Add(WipeOffset(direction)), c), Bezier, Vector, Auto)
        && HasKey(r, "location", c, 45, Component(loc, c), Bezier, Vector, Auto)
  {
    var log := WipeKeys(loc, direction);
    EasedDistinctLog(v, log, "location", Bezier, Vector, Auto);
    assert log[0].frame == 1 && log[1].frame == 45;
  }

  /**
   * `create_wipe_effect`: a key at frame 1 at the location plus the direction's
   * offset, a key at frame 45 back at the original location, then BEZIER with
   * VECTOR/AUTO handles on the location curves.
   */
  method CreateWipeEffect(textObj: SceneObject, direction: string)
    requires DistinctKeys(ActionCurves(textObj))
    modifies textObj`location, textObj`keyLog, textObj`animation, KeyArrays(ActionCurves(textObj))
    ensures textObj.location == old(textObj.location)
    ensures textObj.keyLog == old(textObj.keyLog) + WipeKeys(old(textObj.location), direction)
    ensures CurvesOf(textObj)
      == EaseView(InsertLog(old(CurvesOf(textObj)), WipeKeys(old(textObj.location), direction)), "location", Bezier, Vector, Auto)
  {
    var startOffset := WipeOffset(direction);
    var shifted := textObj.location.Add(startOffset);
    var back := shifted.Sub(startOffset);
    assert back == textObj.location;
    textObj.KeyLocationPair(1, shifted, 45, back);
    textObj.EaseCurves("location", Bezier, Vector, Auto);
  }

  /** The curves left after removing those whose data path contains `path`. */
  function RemoveCurves(cs: seq<FCurve>, path: string): (r: seq<FCurve>)
    ensures |r| <= |cs|
    ensures forall i :: 0 <= i < |r| ==> r[i] in cs && !Contains(r[i].dataPath, path)
    ensures forall i :: 0 <= i < |cs| && !Contains(cs[i].dataPath, path) ==> cs[i] in r
  {
    if cs == [] then []
    else (if Contains(cs[0].dataPath, path) then [] else [cs[0]]) + RemoveCurves(cs[1..], path)
  }

  /** Removing curves keeps the remaining key arrays distinct. */
  lemma {:induction false} RemoveCurvesDistinct(cs: seq<FCurve>, path: string)
    requires DistinctKeys(cs)
    ensures DistinctKeys(RemoveCurves(cs, path))
    ensures KeyArrays(RemoveCurves(cs, path)) <= KeyArrays(cs)
  {
    if cs != [] {
      assert DistinctKeys(cs[1..]) by {
        forall i, j | 0 <= i < j < |cs[1..]| ensures cs[1..][i].keys != cs[1..][j].keys {
          assert cs[1..][i] == cs[i + 1] && cs[1..][j] == cs[j + 1];
        }
      }
      RemoveCurvesDistinct(cs[1..], path);
      var rest := RemoveCurves(cs[1..], path);
      forall i | 0 <= i < |rest| ensures rest[i].keys != cs[0].keys {
        var k :| 0 <= k < |cs[1..]| && cs[1..][k] == rest[i];
        assert cs[k + 1] == rest[i];
      }
    }
  }

  /** Drops the curves whose data path contains `path` from an object's action. */
  method RemoveActionCurves(obj: SceneObject, path: string)
    requires obj.animation.Action? && DistinctKeys(obj.animation.fcurves)
    modifies obj`animation
    ensures obj.animation == Action(RemoveCurves(old(obj.animation.fcurves), path))
    ensures DistinctKeys(ActionCurves(obj)) && KeyArrays(ActionCurves(obj)) <= KeyArrays(old(obj.animation.fcurves))
  {
    RemoveCurvesDistinct(obj.animation.fcurves, path);
    obj.animation := Action(RemoveCurves(obj.animation.fcurves, path));
  }

  /** The slide's two location keys: at `current` from the offset location, 30 frames later at `loc`. */
  function SlideKeys(loc: Vec3, current: int, direction: string): seq<KeyInsert> {
    KeyPair("location", current, loc.Add(SlideOffset(direction)), current + 30, loc)
  }

  /** The curves that survive the removal keep none on "location". */
  lemma RemovedHasNoLocation(cs: seq<FCurve>, v: seq<Curve>)
    requires |v| == |cs| && forall i :: 0 <= i < |v| ==> v[i].dataPath == cs[i].dataPath
    requires forall i :: 0 <= i < |cs| ==> !Contains(cs[i].dataPath, "location")
    ensures forall i :: 0 <= i < |v| ==> !Contains(v[i].dataPath, "location")
  {
  }

  /**
   * `NORENT_OT_TextAnimateSlide.execute`: cancelled unless a text object is
   * given. Existing location curves are removed (reaching the action of
   * animation data without one raises, which is `Failed`); then a key at
   * `current` at the slide's start offset and one 30 frames later at the
   * current location, and BEZIER with VECTOR/AUTO handles on the location
   * curves, which are then exactly the three new ones.
   */
  method TextAnimateSlide(obj: SceneObject?, current: int, direction: string) returns (status: Status)
    requires obj != null ==> DistinctKeys(ActionCurves(obj))
    modifies obj
    modifies if obj != null then KeyArrays(ActionCurves(obj)) else {}
    ensures obj == null || obj.kind != Font ==> status == Cancelled && (obj == null || unchanged(obj))
    ensures obj != null && obj.kind == Font && old(obj.animation) == NoAction ==>
      status == Failed && unchanged(obj)
    ensures obj != null && obj.kind == Font && old(obj.animation) != NoAction ==>
      var base := old(View(RemoveCurves(ActionCurves(obj), "location")));
      var keys := SlideKeys(old(obj.location), current, direction);
      status == Finished
      && obj.location == old(obj.location)
      && obj.keyLog == old(obj.keyLog) + keys
      && CurvesOf(obj) == EaseView(InsertLog(base, keys), "location", Bezier, Vector, Auto)
      && |CurvesOf(obj)| == |base| + 3 && CurvesOf(obj)[..|base|] == base
      && PairKeyed(CurvesOf(obj), |base|, "location", current, old(obj.location).Add(SlideOffset(direction)),
                   current + 30, old(obj.location), Bezier, Vector, Auto)
      && unchanged(obj`name, obj`parent, obj`rotation, obj`scale, obj`body, obj`dataKeyLog)
  {
    if obj == null || obj.kind != Font {
      return Cancelled;
    }
    if obj.animation != NoAnimationData {
      if obj.animation == NoAction {
        return Failed;
      }
      RemoveActionCurves(obj, "location");
    }
    RemovedHasNoLocation(ActionCurves(obj), CurvesOf(obj));
    var currentLocation := obj.location;
    var startLocation := currentLocation.Add(SlideOffset(direction));
    var endFrame := current + 30;
    obj.KeyLocationPairEased(current, startLocation, endFrame, currentLocation, Bezier, Vector, Auto);
    return Finished;
  }

  /**
   * The three bounce keys on "scale": 0.1 at frame 1, 1.2 at 20, 1.0 at 35.
   * The scale overshoots its resting size before it settles there.
   */
  function BounceKeys(): (r: seq<KeyInsert>)
    ensures |r| == 3 && forall i :: 0 <= i < 3 ==> r[i].dataPath == "scale" && r[i].value.VectorValue?
    ensures r[0].frame < r[1].frame < r[2].frame
    ensures r[2].value.v == Vec3(1.0, 1.0, 1.0)
    ensures forall c :: 0 <= c < 3 ==>
      Component(r[0].value.v, c) < Component(r[2].value.v, c) < Component(r[1].value.v, c)
  {
    [KeyInsert("scale", 1, VectorValue(Vec3(0.1, 0.1, 0.1))),
     KeyInsert("scale", 20, VectorValue(Vec3(1.2, 1.2, 1.2))),
     KeyInsert("scale", 35, VectorValue(Vec3(1.0, 1.0, 1.0)))]
  }

  /**
   * After the bounce's inserts and easing loop every scale channel holds 0.1
   * at frame 1, 1.2 at frame 20 and 1.0 at frame 35, all BEZIER with FREE
   * handles.
   */
  lemma BounceCurves(v: seq<Curve>)
    ensures var r := EaseView(InsertLog(v, BounceKeys()), "scale", Bezier, Free, Free);
      forall c :: 0 <= c < 3 ==>
        HasKey(r, "scale", c, 1, 0.1, Bezier, Free, Free)
        && HasKey(r, "scale", c, 20, 1.2, Bezier, Free, Free)
        && HasKey(r, "scale", c, 35, 1.0, Bezier, Free, Free)
  {
    var log := BounceKeys();
    var r := EaseView(InsertLog(v, log), "scale", Bezier, Free, Free);
    EasedDistinctLog(v, log, "scale", Bezier, Free, Free);
    forall c | 0 <= c < 3
      ensures HasKey(r, "scale", c, 1, 0.1, Bezier, Free, Free)
      ensures HasKey(r, "scale", c, 20, 1.2, Bezier, Free, Free)
      ensures HasKey(r, "scale", c, 35, 1.0, Bezier, Free, Free)
    {
      assert HasKey(r, "scale", c, log[0].frame, Component(log[0].value.v, c), Bezier, Free, Free);
      assert HasKey(r, "scale", c, log[1].frame, Component(log[1].value.v, c), Bezier, Free, Free);
      assert HasKey(r, "scale", c, log[2].frame, Component(log[2].value.v, c), Bezier, Free, Free);
    }
  }

  /** The bounce's three scale keys, inserted one after the other. */
  method BounceInserts(textObj: SceneObject)
    requires DistinctKeys(ActionCurves(textObj))
    modifies textObj`scale, textObj`animation, textObj`keyLog
    ensures textObj.scale == Vec3(1.0, 1.0, 1.0)
    ensures textObj.keyLog == old(textObj.keyLog) + BounceKeys()
    ensures DistinctKeys(ActionCurves(textObj))
    ensures CurvesOf(textObj) == InsertLog(old(CurvesOf(textObj)), BounceKeys())
    ensures forall c :: c in ActionCurves(textObj) ==> c.keys in old(KeyArrays(ActionCurves(textObj))) || fresh(c.keys)
  {
    ghost var v0 := CurvesOf(textObj);
    ghost var k0 := textObj.keyLog;
    var small, over, rest := Vec3(0.1, 0.1, 0.1), Vec3(1.2, 1.2, 1.2), Vec3(1.0, 1.0, 1.0);
    ghost var e0, e1, e2 := KeyInsert("scale", 1, VectorValue(small)), KeyInsert("scale", 20, VectorValue(over)),
                            KeyInsert("scale", 35, VectorValue(rest));
    textObj.KeyScale(1, small);
    textObj.KeyScale(20, over);
    textObj.KeyScale(35, rest);
    InsertLogThree(v0, e0, e1, e2);
    assert BounceKeys() == [e0, e1, e2];
    LogTriple(k0, e0, e1, e2);
  }

  /**
   * `create_bounce_effect`: the three scale keys, overshooting before they
   * settle, then BEZIER with FREE handles on every scale curve.
   */
  method CreateBounceEffect(textObj: SceneObject)
    requires DistinctKeys(ActionCurves(textObj))
    modifies textObj`scale, textObj`keyLog, textObj`animation, KeyArrays(ActionCurves(textObj))
    ensures textObj.scale == Vec3(1.0, 1.0, 1.0)
    ensures textObj.keyLog == old(textObj.keyLog) + BounceKeys()
    ensures CurvesOf(textObj) == EaseView(InsertLog(old(CurvesOf(textObj)), BounceKeys()), "scale", Bezier, Free, Free)
  {
    BounceInserts(textObj);
    textObj.EaseCurves("scale", Bezier, Free, Free);
  }

  /** The scale-in keys: scale 0 at frame 1, scale 1 at frame 30. */
  function ScaleInKeys(): seq<KeyInsert> {
    KeyPair("scale", 1, Vec3(0.0, 0.0, 0.0), 30, Vec3(1.0, 1.0, 1.0))
  }

  /**
   * After the scale-in's inserts and `set_ease_in_out`, every scale channel
   * holds 0 at frame 1 and 1 at frame 30, BEZIER with AUTO handles.
   */
  lemma ScaleInCurves(v: seq<Curve>)
    ensures var r := EaseView(InsertLog(v, ScaleInKeys()), "scale", Bezier, Auto, Auto);
      forall c :: 0 <= c < 3 ==>
        HasKey(r, "scale", c, 1, 0.0, Bezier, Auto, Auto) && HasKey(r, "scale", c, 30, 1.0, Bezier, Auto, Auto)
  {
    var log := ScaleInKeys();
    var r := EaseView(InsertLog(v, log), "scale", Bezier, Auto, Auto);
    EasedDistinctLog(v, log, "scale", Bezier, Auto, Auto);
    forall c | 0 <= c < 3
      ensures HasKey(r, "scale", c, 1, 0.0, Bezier, Auto, Auto) && HasKey(r, "scale", c, 30, 1.0, Bezier, Auto, Auto)
    {
      assert HasKey(r, "scale", c, log[0].frame, Component(log[0].value.v, c), Bezier, Auto, Auto);
      assert HasKey(r, "scale", c, log[1].frame, Component(log[1].value.v, c), Bezier, Auto, Auto);
    }
  }

  /**
   * The animation `NORENT_OT_TextAddAnimated.execute` gives a new text object:
   * scale 0 at frame 1, scale 1 at frame 30, then `set_ease_in_out` on the
   * scale curves.
   */
  method AddScaleInAnimation(textObj: SceneObject)
    requires DistinctKeys(ActionCurves(textObj))
    modifies textObj`scale, textObj`keyLog, textObj`animation, KeyArrays(ActionCurves(textObj))
    ensures textObj.scale == Vec3(1.0, 1.0, 1.0)
    ensures textObj.keyLog == old(textObj.keyLog) + ScaleInKeys()
    ensures CurvesOf(textObj) == EaseView(InsertLog(old(CurvesOf(textObj)), ScaleInKeys()), "scale", Bezier, Auto, Auto)
  {
    ghost var v0 := CurvesOf(textObj);
    textObj.KeyScale(1, Vec3(0.0, 0.0, 0.0));
    textObj.KeyScale(30, Vec3(1.0, 1.0, 1.0));
    InsertLogPair(v0, "scale", 1, Vec3(0.0, 0.0, 0.0), 30, Vec3(1.0, 1.0, 1.0));
    textObj.EaseCurves("scale", Bezier, Auto, Auto);
  }
}
