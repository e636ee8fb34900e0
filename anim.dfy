/**
 * The part of the host application's data model that the add-on's operators
 * read and write: 2-D keyframe points, F-curves with their keyframes, scene
 * objects with their animation data, and the insertion of keyframes.
 *
 * Coordinates are exact reals. `keyframe_insert` on a vector property sets a
 * keyframe at the frame in each of the property's three channel curves,
 * creating the action and the curves when they are missing; every call is
 * also recorded in the object's `keyLog`.
 */
module Anim {
  import opened Strings

  datatype Vec2 = Vec2(x: real, y: real) {
    function Add(o: Vec2): Vec2 { Vec2(x + o.x, y + o.y) }
    function Sub(o: Vec2): Vec2 { Vec2(x - o.x, y - o.y) }
    function Scale(k: real): Vec2 { Vec2(x * k, y * k) }
  }

  function Dot(a: Vec2, b: Vec2): real { a.x * b.x + a.y * b.y }
  function Cross(a: Vec2, b: Vec2): real { a.x * b.y - a.y * b.x }

  /** The squared Euclidean distance between two points. */
  function Dist2(a: Vec2, b: Vec2): real { Dot(a.Sub(b), a.Sub(b)) }

  /**
   * `len` is the Euclidean length of 2-D vectors: non-negative, zero only at
   * the zero vector, and squaring to the dot product. The model takes the
   * length (a square root) as a parameter with these properties instead of
   * computing it.
   */
  ghost predicate IsLength(len: Vec2 -> real) {
    forall v :: len(v) >= 0.0 && (len(v) == 0.0 <==> v == Vec2(0.0, 0.0)) && len(v) * len(v) == Dot(v, v)
  }

  datatype Vec3 = Vec3(x: real, y: real, z: real) {
    function Add(o: Vec3): Vec3 { Vec3(x + o.x, y + o.y, z + o.z) }
    function Sub(o: Vec3): Vec3 { Vec3(x - o.x, y - o.y, z - o.z) }
    function Scale(k: real): Vec3 { Vec3(x * k, y * k, z * k) }
  }

  function Dot3(a: Vec3, b: Vec3): real { a.x * b.x + a.y * b.y + a.z * b.z }

  /** `len` is the Euclidean length of 3-D vectors, with the properties of `IsLength`. */
  ghost predicate IsLength3(len: Vec3 -> real) {
    forall v :: len(v) >= 0.0 && (len(v) == 0.0 <==> v == Vec3(0.0, 0.0, 0.0)) && len(v) * len(v) == Dot3(v, v)
  }

  /** Python's `int()` on a float: truncation toward zero. */
  function Trunc(r: real): (t: int)
    ensures r >= 0.0 ==> 0 <= t && t as real <= r < t as real + 1.0
    ensures r < 0.0 ==> t <= 0 && t as real - 1.0 < r <= t as real
  {
    if r >= 0.0 then r.Floor else -((-r).Floor)
  }

  lemma TruncMono(a: real, b: real)
    requires 0.0 <= a <= b
    ensures Trunc(a) <= Trunc(b)
  {
  }

  datatype Option<T> = None | Some(value: T)

  datatype Interpolation = Constant | Linear | Bezier

  datatype HandleType = Free | Aligned | Vector | Auto | AutoClamped

  /** A keyframe point: its centre `co` = (frame, value) and its two Bezier handles. */
  datatype Keyframe = Keyframe(
    co: Vec2,
    handleLeft: Vec2,
    handleRight: Vec2,
    interpolation: Interpolation,
    leftType: HandleType,
    rightType: HandleType)
  {
    /** The keyframe with its interpolation and both handle types replaced. */
    function WithModes(interp: Interpolation, left: HandleType, right: HandleType): (k: Keyframe)
      ensures k.co == co && k.handleLeft == handleLeft && k.handleRight == handleRight
      ensures k.interpolation == interp && k.leftType == left && k.rightType == right
    {
      this.(interpolation := interp, leftType := left, rightType := right)
    }

    /**
     * The keyframe moved to value `y` on its own frame, both handles moved
     * with it and its modes kept: an insert over an existing key.
     */
    function WithValue(y: real): (k: Keyframe)
      ensures k.co == Vec2(co.x, y)
      ensures k.handleLeft.Sub(k.co) == handleLeft.Sub(co) && k.handleRight.Sub(k.co) == handleRight.Sub(co)
      ensures k.interpolation == interpolation && k.leftType == leftType && k.rightType == rightType
    {
      var d := y - co.y;
      this.(co := Vec2(co.x, y), handleLeft := Vec2(handleLeft.x, handleLeft.y + d),
            handleRight := Vec2(handleRight.x, handleRight.y + d))
    }
  }

  /**
   * The keyframe an insert creates on a frame without one: BEZIER with
   * AUTO_CLAMPED handles, the defaults of a new key.
   */
  function NewKey(frame: int, y: real): Keyframe {
    var co := Vec2(frame as real, y);
    Keyframe(co, co, co, Bezier, AutoClamped, AutoClamped)
  }

  /**
   * An F-curve: the channel `arrayIndex` of the property `dataPath`, and its
   * keyframe points. The easing passes change the points in place; a key
   * insert puts a new curve with one more point, or one point changed, in
   * the old curve's place (`InsertChannel`).
   */
  class FCurve {
    const dataPath: string
    const arrayIndex: int
    const keys: array<Keyframe>

    constructor (path: string, index: int, points: seq<Keyframe>)
      ensures dataPath == path && arrayIndex == index
      ensures fresh(keys) && keys[..] == points
    {
      dataPath, arrayIndex := path, index;
      keys := new Keyframe[|points|](i requires 0 <= i < |points| => points[i]);
    }
  }

  /** The key arrays of a list of curves. */
  function KeyArrays(cs: seq<FCurve>): set<array<Keyframe>> {
    set c | c in cs :: c.keys
  }

  /** No two curves of the list share their keyframe array. */
  predicate DistinctKeys(cs: seq<FCurve>) {
    forall i, j :: 0 <= i < j < |cs| ==> cs[i].keys != cs[j].keys
  }

  /** An F-curve's content as a value: its channel and its keyframe points. */
  datatype Curve = Curve(dataPath: string, arrayIndex: int, keys: seq<Keyframe>)

  /** The contents of a list of curves. */
  function View(cs: seq<FCurve>): (v: seq<Curve>)
    reads KeyArrays(cs)
    ensures |v| == |cs|
    ensures forall i {:trigger v[i]} :: 0 <= i < |cs| ==> v[i] == Curve(cs[i].dataPath, cs[i].arrayIndex, cs[i].keys[..])
  {
    if cs == [] then []
    else
      assert KeyArrays(cs[1..]) <= KeyArrays(cs) by {
        forall a | a in KeyArrays(cs[1..]) ensures a in KeyArrays(cs) {
          var c :| c in cs[1..] && c.keys == a;
          assert c in cs;
        }
      }
      [Curve(cs[0].dataPath, cs[0].arrayIndex, cs[0].keys[..])] + View(cs[1..])
  }

  predicate OnChannel(c: Curve, path: string, index: int) {
    c.dataPath == path && c.arrayIndex == index
  }

  /** The first curve on channel (`path`, `index`), or -1 when there is none: `fcurves.find`. */
  function ChannelIndex(v: seq<Curve>, path: string, index: int): (p: int)
    ensures -1 <= p < |v|
    ensures 0 <= p ==> OnChannel(v[p], path, index)
  {
    if v == [] then -1
    else if OnChannel(v[0], path, index) then 0
    else
      var p := ChannelIndex(v[1..], path, index);
      if p < 0 then -1 else p + 1
  }

  /** No curve before the one found is on the channel; none is when nothing is found. */
  lemma {:induction false} ChannelIndexFirst(v: seq<Curve>, path: string, index: int)
    ensures var p := ChannelIndex(v, path, index);
      forall q :: 0 <= q < |v| && (p < 0 || q < p) ==> !OnChannel(v[q], path, index)
  {
    if v != [] && !OnChannel(v[0], path, index) {
      ChannelIndexFirst(v[1..], path, index);
      assert forall q :: 1 <= q < |v| ==> v[q] == v[1..][q - 1];
    }
  }

  /** The first-match property pins the channel index down. */
  lemma {:induction false} ChannelIndexIs(v: seq<Curve>, path: string, index: int, p: int)
    requires -1 <= p < |v|
    requires 0 <= p ==> OnChannel(v[p], path, index)
    requires forall q :: 0 <= q < |v| && (p < 0 || q < p) ==> !OnChannel(v[q], path, index)
    ensures ChannelIndex(v, path, index) == p
  {
    if v != [] && !OnChannel(v[0], path, index) {
      assert p != 0;
      forall q | 0 <= q < |v[1..]| && (p - 1 < 0 || q < p - 1)
        ensures !OnChannel(v[1..][q], path, index)
      {
        assert v[1..][q] == v[q + 1];
      }
      ChannelIndexIs(v[1..], path, index, if p < 0 then -1 else p - 1);
    }
  }

  /** The first keyframe of `ks` on `frame`, if any. */
  function KeyOfFrame(ks: seq<Keyframe>, frame: int): (k: Option<Keyframe>)
    ensures k.Some? ==> k.value in ks && k.value.co.x == frame as real
    ensures k.None? ==> forall i :: 0 <= i < |ks| ==> ks[i].co.x != frame as real
  {
    if ks == [] then None
    else if ks[0].co.x == frame as real then Some(ks[0])
    else
      assert forall i :: 1 <= i < |ks| ==> ks[i] == ks[1..][i - 1];
      KeyOfFrame(ks[1..], frame)
  }

  /** The keyframe of channel (`path`, `index`) on `frame`, if that curve and key exist. */
  function KeyAt(v: seq<Curve>, path: string, index: int, frame: int): Option<Keyframe> {
    var p := ChannelIndex(v, path, index);
    if p < 0 then None else KeyOfFrame(v[p].keys, frame)
  }

  /** Channel (`path`, `index`) holds a key at `frame` of value `y` with these modes. */
  predicate HasKey(v: seq<Curve>, path: string, index: int, frame: int, y: real,
                   interp: Interpolation, left: HandleType, right: HandleType)
  {
    var k := KeyAt(v, path, index, frame);
    k.Some? && k.value.co == Vec2(frame as real, y)
    && k.value.interpolation == interp && k.value.leftType == left && k.value.rightType == right
  }

  /** Frames increase strictly along the curve. */
  predicate FramesIncrease(ks: seq<Keyframe>) {
    forall i, j :: 0 <= i < j < |ks| ==> ks[i].co.x < ks[j].co.x
  }

  /**
   * One channel's part of an insert: the keys are walked in order; a key on
   * `frame` takes the value `y`, otherwise a new key goes before the first
   * later frame, or at the end.
   */
  function InsertKey(ks: seq<Keyframe>, frame: int, y: real): seq<Keyframe> {
    if ks == [] then [NewKey(frame, y)]
    else if ks[0].co.x == frame as real then [ks[0].WithValue(y)] + ks[1..]
    else if ks[0].co.x > frame as real then [NewKey(frame, y)] + ks
    else [ks[0]] + InsertKey(ks[1..], frame, y)
  }

  /** After an insert the key on `frame` holds `y`, and the keys on every other frame are as they were. */
  lemma {:induction false} InsertKeyAt(ks: seq<Keyframe>, frame: int, y: real, g: int)
    ensures var k := KeyOfFrame(InsertKey(ks, frame, y), frame); k.Some? && k.value.co == Vec2(frame as real, y)
    ensures g != frame ==> KeyOfFrame(InsertKey(ks, frame, y), g) == KeyOfFrame(ks, g)
  {
    var r := InsertKey(ks, frame, y);
    if ks == [] {
    } else if ks[0].co.x == frame as real {
      assert r[0] == ks[0].WithValue(y) && r[1..] == ks[1..];
    } else if ks[0].co.x > frame as real {
      assert r[0] == NewKey(frame, y) && r[1..] == ks;
    } else {
      InsertKeyAt(ks[1..], frame, y, g);
      assert r[0] == ks[0] && r[1..] == InsertKey(ks[1..], frame, y);
    }
  }

  /**
   * An insert keeps a curve's frames strictly increasing, and adds a point
   * exactly when the frame had none.
   */
  lemma {:induction false} InsertKeySorted(ks: seq<Keyframe>, frame: int, y: real)
    requires FramesIncrease(ks)
    ensures FramesIncrease(InsertKey(ks, frame, y))
    ensures |InsertKey(ks, frame, y)| == if KeyOfFrame(ks, frame).Some? then |ks| else |ks| + 1
  {
    var r := InsertKey(ks, frame, y);
    if ks == [] {
    } else if ks[0].co.x == frame as real {
      assert r[0].co.x == ks[0].co.x && r[1..] == ks[1..];
    } else if ks[0].co.x > frame as real {
      assert r[1..] == ks;
      assert KeyOfFrame(ks, frame).None?;
    } else {
      assert FramesIncrease(ks[1..]);
      InsertKeySorted(ks[1..], frame, y);
      var t := InsertKey(ks[1..], frame, y);
      assert r == [ks[0]] + t;
      forall j | 0 <= j < |t| ensures ks[0].co.x < t[j].co.x {
        InsertKeyMembers(ks[1..], frame, y, j);
      }
    }
  }

  /** Every point after an insert is an old point or sits on the inserted frame. */
  lemma {:induction false} InsertKeyMembers(ks: seq<Keyframe>, frame: int, y: real, j: int)
    requires 0 <= j < |InsertKey(ks, frame, y)|
    ensures var k := InsertKey(ks, frame, y)[j]; k in ks || k.co.x == frame as real
  {
    if ks != [] && ks[0].co.x < frame as real && j > 0 {
      InsertKeyMembers(ks[1..], frame, y, j - 1);
    }
  }

  /** One channel's part of an insert on a list of curves; a missing curve is appended. */
  function InsertChannelView(v: seq<Curve>, path: string, index: int, frame: int, y: real): seq<Curve> {
    var p := ChannelIndex(v, path, index);
    if p < 0 then v + [Curve(path, index, [NewKey(frame, y)])]
    else v[p := v[p].(keys := InsertKey(v[p].keys, frame, y))]
  }

  /** The channel `c` component of a vector. */
  function Component(a: Vec3, c: int): real {
    if c == 0 then a.x else if c == 1 then a.y else a.z
  }

  /** An insert on a vector property: channels 0, 1 and 2 in turn. */
  function InsertVector(v: seq<Curve>, path: string, frame: int, a: Vec3): seq<Curve> {
    InsertChannelView(InsertChannelView(InsertChannelView(v, path, 0, frame, a.x), path, 1, frame, a.y),
                      path, 2, frame, a.z)
  }

  /** The effect of one logged insert on the curves; a text value keys no curve. */
  function InsertEntry(v: seq<Curve>, e: KeyInsert): seq<Curve> {
    if e.value.VectorValue? then InsertVector(v, e.dataPath, e.frame, e.value.v) else v
  }

  /** The curves after the inserts of `log`, in order. */
  function InsertLog(v: seq<Curve>, log: seq<KeyInsert>): seq<Curve> {
    if log == [] then v else InsertEntry(InsertLog(v, log[..|log| - 1]), log[|log| - 1])
  }

  /** Appending to a key log is associative. */
  lemma LogAppendAssoc(a: seq<KeyInsert>, b: seq<KeyInsert>, c: seq<KeyInsert>)
    ensures (a + b) + c == a + (b + c)
  {
  }

  /** A prefix of a key log one entry longer. */
  lemma LogTriple(log: seq<KeyInsert>, e0: KeyInsert, e1: KeyInsert, e2: KeyInsert)
    ensures log + [e0] + [e1] + [e2] == log + [e0, e1, e2]
  {
  }

  lemma LogTakeSnoc(log: seq<KeyInsert>, i: int)
    requires 0 <= i < |log|
    ensures log[..i + 1] == log[..i] + [log[i]]
  {
  }

  lemma InsertLogSnoc(v: seq<Curve>, log: seq<KeyInsert>, e: KeyInsert)
    ensures InsertLog(v, log + [e]) == InsertEntry(InsertLog(v, log), e)
  {
    assert (log + [e])[..|log|] == log;
  }

  /**
   * An insert on one channel: that channel's key on `frame` holds `y`, and
   * every other (channel, frame) pair reads as before.
   */
  lemma InsertChannelAt(v: seq<Curve>, path: string, index: int, frame: int, y: real,
                        path2: string, index2: int, g: int)
    ensures var k := KeyAt(InsertChannelView(v, path, index, frame, y), path, index, frame);
      k.Some? && k.value.co == Vec2(frame as real, y)
    ensures path2 != path || index2 != index || g != frame ==>
      KeyAt(InsertChannelView(v, path, index, frame, y), path2, index2, g) == KeyAt(v, path2, index2, g)
  {
    var r := InsertChannelView(v, path, index, frame, y);
    var p := ChannelIndex(v, path, index);
    var p2 := ChannelIndex(v, path2, index2);
    ChannelIndexFirst(v, path, index);
    ChannelIndexFirst(v, path2, index2);
    InsertKeyAt(if p < 0 then [] else v[p].keys, frame, y, g);
    if p < 0 {
      ChannelIndexIs(r, path, index, |v|);
      if path2 != path || index2 != index {
        ChannelIndexIs(r, path2, index2, p2);
      }
    } else {
      ChannelIndexIs(r, path, index, p);
      if path2 != path || index2 != index {
        ChannelIndexIs(r, path2, index2, p2);
      }
    }
  }

  /**
   * An insert on a vector property: each of its three channels holds the
   * matching component on `frame`, and every other (channel, frame) pair
   * reads as before.
   */
  lemma InsertVectorAt(v: seq<Curve>, path: string, frame: int, a: Vec3, path2: string, c: int, g: int)
    ensures 0 <= c < 3 ==>
      var k := KeyAt(InsertVector(v, path, frame, a), path, c, frame);
      k.Some? && k.value.co == Vec2(frame as real, Component(a, c))
    ensures !(path2 == path && 0 <= c < 3 && g == frame) ==>
      KeyAt(InsertVector(v, path, frame, a), path2, c, g) == KeyAt(v, path2, c, g)
  {
    var v1 := InsertChannelView(v, path, 0, frame, a.x);
    var v2 := InsertChannelView(v1, path, 1, frame, a.y);
    InsertChannelAt(v, path, 0, frame, a.x, path2, c, g);
    InsertChannelAt(v1, path, 1, frame, a.y, path2, c, g);
    InsertChannelAt(v2, path, 2, frame, a.z, path2, c, g);
    InsertChannelAt(v1, path, 1, frame, a.y, path, 0, frame);
    InsertChannelAt(v2, path, 2, frame, a.z, path, 0, frame);
    InsertChannelAt(v2, path, 2, frame, a.z, path, 1, frame);
  }

  /**
   * After the inserts of `log`, each logged vector key has a key on its
   * frame in each channel, holding the logged value when no later entry
   * keys the same property on the same frame.
   */
  lemma {:induction false} InsertLogKeys(v: seq<Curve>, log: seq<KeyInsert>, i: int, c: int)
    requires 0 <= i < |log| && 0 <= c < 3 && log[i].value.VectorValue?
    ensures KeyAt(InsertLog(v, log), log[i].dataPath, c, log[i].frame).Some?
    ensures (forall j :: i < j < |log| && log[j].value.VectorValue? ==>
               log[j].dataPath != log[i].dataPath || log[j].frame != log[i].frame) ==>
      KeyAt(InsertLog(v, log), log[i].dataPath, c, log[i].frame).value.co
        == Vec2(log[i].frame as real, Component(log[i].value.v, c))
  {
    var n := |log| - 1;
    var w := InsertLog(v, log[..n]);
    var e := log[i];
    assert InsertLog(v, log) == InsertEntry(w, log[n]);
    if i == n {
      InsertVectorAt(w, e.dataPath, e.frame, e.value.v, e.dataPath, c, e.frame);
    } else {
      assert log[..n][i] == e;
      InsertLogKeys(v, log[..n], i, c);
      if log[n].value.VectorValue? {
        InsertVectorAt(w, log[n].dataPath, log[n].frame, log[n].value.v, e.dataPath, c, e.frame);
      }
      if forall j :: i < j < |log| && log[j].value.VectorValue? ==>
           log[j].dataPath != e.dataPath || log[j].frame != e.frame
      {
        assert forall j :: i < j < n && log[..n][j].value.VectorValue? ==>
          log[..n][j].dataPath != e.dataPath || log[..n][j].frame != e.frame;
      }
    }
  }

  /**
   * One channel of an insert on a list of F-curves: the first curve on the
   * channel is replaced by a new curve with the key inserted, or a new curve
   * holding just that key is appended.
   */
  method InsertChannel(cs: seq<FCurve>, path: string, index: int, frame: int, y: real) returns (r: seq<FCurve>)
    requires DistinctKeys(cs)
    ensures DistinctKeys(r)
    ensures View(r) == InsertChannelView(old(View(cs)), path, index, frame, y)
    ensures forall c :: c in r ==> c in cs || fresh(c.keys)
  {
    var p := ChannelIndex(View(cs), path, index);
    if p < 0 {
      var c := new FCurve(path, index, [NewKey(frame, y)]);
      ViewPut(cs, c, |cs|);
      r := cs + [c];
    } else {
      var c := new FCurve(path, index, InsertKey(cs[p].keys[..], frame, y));
      ViewPut(cs, c, p);
      r := cs[p := c];
    }
  }

  /** Putting a curve with a key array of its own at position `p` of a list, or after its end. */
  lemma ViewPut(cs: seq<FCurve>, c: FCurve, p: int)
    requires 0 <= p <= |cs| && DistinctKeys(cs) && c.keys !in KeyArrays(cs)
    ensures var r := if p == |cs| then cs + [c] else cs[p := c];
      DistinctKeys(r)
      && View(r) == (if p == |cs| then View(cs) + [Curve(c.dataPath, c.arrayIndex, c.keys[..])]
                     else View(cs)[p := Curve(c.dataPath, c.arrayIndex, c.keys[..])])
      && forall d :: d in r ==> d in cs || d == c
  {
    var r := if p == |cs| then cs + [c] else cs[p := c];
    assert forall i :: 0 <= i < |r| && i != p ==> r[i] == cs[i];
    assert forall i :: 0 <= i < |r| && i != p ==> r[i].keys in KeyArrays(cs);
  }

  /**
   * An object's animation data: absent, present without an action, or an
   * action holding F-curves.
   */
  datatype Animation = NoAnimationData | NoAction | Action(fcurves: seq<FCurve>) {
    function Curves(): (cs: seq<FCurve>)
      ensures Action? ==> cs == fcurves
      ensures !Action? ==> cs == []
    {
      if Action? then fcurves else []
    }
  }

  datatype ObjectKind = Font | CameraObject | EmptyObject | OtherKind

  datatype KeyValue = VectorValue(v: Vec3) | TextValue(s: string)

  /** One call of `keyframe_insert(data_path, frame)` and the value it keyed. */
  datatype KeyInsert = KeyInsert(dataPath: string, frame: int, value: KeyValue)

  /** The outcome an operator returns to the host. */
  datatype Status = Finished | Cancelled | Failed

  /** The three channel inserts of a vector property, on a list of F-curves. */
  method InsertVectorCurves(cs: seq<FCurve>, path: string, frame: int, a: Vec3) returns (r: seq<FCurve>)
    requires DistinctKeys(cs)
    ensures DistinctKeys(r)
    ensures View(r) == InsertVector(old(View(cs)), path, frame, a)
    ensures forall c :: c in r ==> c.keys in KeyArrays(cs) || fresh(c.keys)
  {
    ghost var v0 := View(cs);
    var cs1 := InsertChannel(cs, path, 0, frame, a.x);
    ghost var v1 := View(cs1);
    assert v1 == InsertChannelView(v0, path, 0, frame, a.x);
    var cs2 := InsertChannel(cs1, path, 1, frame, a.y);
    ghost var v2 := View(cs2);
    assert v2 == InsertChannelView(v1, path, 1, frame, a.y);
    r := InsertChannel(cs2, path, 2, frame, a.z);
    assert View(r) == InsertChannelView(v2, path, 2, frame, a.z);
  }

  /** The vector properties an object is keyed on. */
  predicate IsVectorPath(path: string) {
    path == "location" || path == "rotation_euler" || path == "scale"
  }

  /**
   * A scene object. `body` stands for the text of a text object's data block
   * and `dataKeyLog` for the keyframes requested on that data block; `keyLog`
   * records the keyframes inserted on the object's own properties, in order.
   */
  class SceneObject {
    const kind: ObjectKind
    var name: string
    var parent: SceneObject?
    var location: Vec3
    var rotation: Vec3
    var scale: Vec3
    var body: string
    var animation: Animation
    var keyLog: seq<KeyInsert>
    var dataKeyLog: seq<KeyInsert>

    constructor (k: ObjectKind, n: string, anim: Animation)
      ensures kind == k && name == n && animation == anim && parent == null
      ensures keyLog == [] && dataKeyLog == []
      ensures location == Vec3(0.0, 0.0, 0.0) && rotation == Vec3(0.0, 0.0, 0.0)
      ensures scale == Vec3(1.0, 1.0, 1.0) && body == ""
    {
      kind, name, animation, parent := k, n, anim, null;
      location, rotation := Vec3(0.0, 0.0, 0.0), Vec3(0.0, 0.0, 0.0);
      scale, body, keyLog, dataKeyLog := Vec3(1.0, 1.0, 1.0), "", [], [];
    }

    /** The current value of the vector property `path`. */
    function VectorOf(path: string): Vec3
      requires IsVectorPath(path)
      reads this`location, this`rotation, this`scale
    {
      if path == "location" then location else if path == "rotation_euler" then rotation else scale
    }

    /**
     * `animation_data_clear()`: the animation data and every keyframe of the
     * object go; keys on its data block stay.
     */
    method ClearAnimationData()
      modifies this`animation, this`keyLog
      ensures animation == NoAnimationData && keyLog == []
    {
      animation, keyLog := NoAnimationData, [];
    }

    /**
     * `keyframe_insert(data_path=path, frame=frame)` on a vector property:
     * each of the three channels gets a key at `frame` holding the current
     * value, in the action's curve for that channel, which is created (and
     * the action with it) when missing. Curves are replaced, never mutated,
     * so a curve's key array is an old one or a new one.
     */
    method KeyframeInsert(path: string, frame: int)
      requires IsVectorPath(path) && DistinctKeys(ActionCurves(this))
      modifies this`animation, this`keyLog
      ensures keyLog == old(keyLog) + [KeyInsert(path, frame, VectorValue(VectorOf(path)))]
      ensures animation.Action? && DistinctKeys(animation.fcurves)
      ensures View(animation.fcurves)
        == InsertEntry(old(View(ActionCurves(this))), KeyInsert(path, frame, VectorValue(VectorOf(path))))
      ensures forall c :: c in animation.fcurves ==> c.keys in old(KeyArrays(ActionCurves(this))) || fresh(c.keys)
    {
      var value := VectorOf(path);
      var cs := InsertVectorCurves(ActionCurves(this), path, frame, value);
      animation := Action(cs);
      keyLog := keyLog + [KeyInsert(path, frame, VectorValue(value))];
    }

    /**
     * `location = a`, keyed on `f0`, then `location = b`, keyed on `f1`: the
     * two-key move the camera and text operators build.
     */
    method KeyLocationPair(f0: int, a: Vec3, f1: int, b: Vec3)
      requires DistinctKeys(ActionCurves(this))
      modifies this`location, this`animation, this`keyLog
      ensures location == b
      ensures keyLog == old(keyLog) + KeyPair("location", f0, a, f1, b)
      ensures animation.Action? && DistinctKeys(ActionCurves(this))
      ensures CurvesOf(this) == InsertLog(old(CurvesOf(this)), KeyPair("location", f0, a, f1, b))
      ensures forall c :: c in ActionCurves(this) ==> c.keys in old(KeyArrays(ActionCurves(this))) || fresh(c.keys)
    {
      ghost var v0 := CurvesOf(this);
      KeyLocation(f0, a);
      KeyLocation(f1, b);
      InsertLogPair(v0, "location", f0, a, f1, b);
    }

    /** `rotation_euler = rot`, then `keyframe_insert(data_path="rotation_euler", frame=frame)`. */
    method KeyRotation(frame: int, rot: Vec3)
      requires DistinctKeys(ActionCurves(this))
      modifies this`rotation, this`animation, this`keyLog
      ensures rotation == rot
      ensures keyLog == old(keyLog) + [KeyInsert("rotation_euler", frame, VectorValue(rot))]
      ensures animation.Action? && DistinctKeys(ActionCurves(this))
      ensures CurvesOf(this) == InsertEntry(old(CurvesOf(this)), KeyInsert("rotation_euler", frame, VectorValue(rot)))
      ensures forall c :: c in ActionCurves(this) ==> c.keys in old(KeyArrays(ActionCurves(this))) || fresh(c.keys)
    {
      rotation := rot;
      KeyframeInsert("rotation_euler", frame);
    }

    /** The rotation twin of `KeyLocationPair`. */
    method KeyRotationPair(f0: int, a: Vec3, f1: int, b: Vec3)
      requires DistinctKeys(ActionCurves(this))
      modifies this`rotation, this`animation, this`keyLog
      ensures rotation == b
      ensures keyLog == old(keyLog) + KeyPair("rotation_euler", f0, a, f1, b)
      ensures animation.Action? && DistinctKeys(ActionCurves(this))
      ensures CurvesOf(this) == InsertLog(old(CurvesOf(this)), KeyPair("rotation_euler", f0, a, f1, b))
      ensures forall c :: c in ActionCurves(this) ==> c.keys in old(KeyArrays(ActionCurves(this))) || fresh(c.keys)
    {
      ghost var v0 := CurvesOf(this);
      KeyRotation(f0, a);
      KeyRotation(f1, b);
      InsertLogPair(v0, "rotation_euler", f0, a, f1, b);
    }

    /** The easing loop on the object's own curves; the object's fields stay as they are. */
    method EaseCurves(path: string, interp: Interpolation, left: HandleType, right: HandleType)
      requires DistinctKeys(ActionCurves(this))
      modifies KeyArrays(ActionCurves(this))
      ensures unchanged(this)
      ensures CurvesOf(this) == EaseView(old(CurvesOf(this)), path, interp, left, right)
    {
      SetCurvesEasing(ActionCurves(this), path, interp, left, right);
    }

    /**
     * `KeyLocationPair` on an object with no location curves, then the easing
     * loop on "location": the three new curves are appended after the old
     * ones and every one of their keys gets the modes.
     */
    method KeyLocationPairEased(f0: int, a: Vec3, f1: int, b: Vec3,
                                interp: Interpolation, left: HandleType, right: HandleType)
      requires DistinctKeys(ActionCurves(this))
      requires forall i :: 0 <= i < |CurvesOf(this)| ==> !Contains(CurvesOf(this)[i].dataPath, "location")
      modifies this`location, this`animation, this`keyLog, KeyArrays(ActionCurves(this))
      ensures location == b
      ensures keyLog == old(keyLog) + KeyPair("location", f0, a, f1, b)
      ensures CurvesOf(this) == EaseView(InsertLog(old(CurvesOf(this)), KeyPair("location", f0, a, f1, b)),
                                         "location", interp, left, right)
      ensures |CurvesOf(this)| == |old(CurvesOf(this))| + 3 && CurvesOf(this)[..|old(CurvesOf(this))|] == old(CurvesOf(this))
      ensures PairKeyed(CurvesOf(this), |old(CurvesOf(this))|, "location", f0, a, f1, b, interp, left, right)
      ensures unchanged(this`name, this`parent, this`rotation, this`scale, this`body, this`dataKeyLog)
    {
      ghost var v := CurvesOf(this);
      KeyLocationPair(f0, a, f1, b);
      EaseCurves("location", interp, left, right);
      KeyPairOnNewCurves(v, "location", f0, a, f1, b, interp, left, right);
    }

    /** The rotation twin of `KeyLocationPairEased`. */
    method KeyRotationPairEased(f0: int, a: Vec3, f1: int, b: Vec3,
                                interp: Interpolation, left: HandleType, right: HandleType)
      requires DistinctKeys(ActionCurves(this))
      requires forall i :: 0 <= i < |CurvesOf(this)| ==> !Contains(CurvesOf(this)[i].dataPath, "rotation_euler")
      modifies this`rotation, this`animation, this`keyLog, KeyArrays(ActionCurves(this))
      ensures rotation == b
      ensures keyLog == old(keyLog) + KeyPair("rotation_euler", f0, a, f1, b)
      ensures CurvesOf(this) == EaseView(InsertLog(old(CurvesOf(this)), KeyPair("rotation_euler", f0, a, f1, b)),
                                         "rotation_euler", interp, left, right)
      ensures |CurvesOf(this)| == |old(CurvesOf(this))| + 3 && CurvesOf(this)[..|old(CurvesOf(this))|] == old(CurvesOf(this))
      ensures PairKeyed(CurvesOf(this), |old(CurvesOf(this))|, "rotation_euler", f0, a, f1, b, interp, left, right)
      ensures unchanged(this`name, this`parent, this`location, this`scale, this`body, this`dataKeyLog)
    {
      ghost var v := CurvesOf(this);
      KeyRotationPair(f0, a, f1, b);
      EaseCurves("rotation_euler", interp, left, right);
      KeyPairOnNewCurves(v, "rotation_euler", f0, a, f1, b, interp, left, right);
    }

    /** `location = loc`, then `keyframe_insert(data_path="location", frame=frame)`. */
    method KeyLocation(frame: int, loc: Vec3)
      requires DistinctKeys(ActionCurves(this))
      modifies this`location, this`animation, this`keyLog
      ensures location == loc
      ensures keyLog == old(keyLog) + [KeyInsert("location", frame, VectorValue(loc))]
      ensures animation.Action? && DistinctKeys(ActionCurves(this))
      ensures CurvesOf(this) == InsertEntry(old(CurvesOf(this)), KeyInsert("location", frame, VectorValue(loc)))
      ensures forall c :: c in ActionCurves(this) ==> c.keys in old(KeyArrays(ActionCurves(this))) || fresh(c.keys)
    {
      location := loc;
      KeyframeInsert("location", frame);
    }

    /** `scale = s`, then `keyframe_insert(data_path="scale", frame=frame)`. */
    method KeyScale(frame: int, s: Vec3)
      requires DistinctKeys(ActionCurves(this))
      modifies this`scale, this`animation, this`keyLog
      ensures scale == s
      ensures keyLog == old(keyLog) + [KeyInsert("scale", frame, VectorValue(s))]
      ensures animation.Action? && DistinctKeys(ActionCurves(this))
      ensures CurvesOf(this) == InsertEntry(old(CurvesOf(this)), KeyInsert("scale", frame, VectorValue(s)))
      ensures forall c :: c in ActionCurves(this) ==> c.keys in old(KeyArrays(ActionCurves(this))) || fresh(c.keys)
    {
      scale := s;
      KeyframeInsert("scale", frame);
    }

    /** `data.keyframe_insert(data_path="body", frame=frame)` on a text object's data block. */
    method KeyframeInsertBody(frame: int)
      modifies this`dataKeyLog
      ensures dataKeyLog == old(dataKeyLog) + [KeyInsert("body", frame, TextValue(body))]
    {
      dataKeyLog := dataKeyLog + [KeyInsert("body", frame, TextValue(body))];
    }
  }

  /** The F-curves of an object's action; none without an action. */
  function ActionCurves(o: SceneObject): seq<FCurve>
    reads o
  {
    o.animation.Curves()
  }

  /** The contents of an object's animation curves. */
  function CurvesOf(o: SceneObject): seq<Curve>
    reads o, KeyArrays(ActionCurves(o))
  {
    View(ActionCurves(o))
  }

  /** The F-curves of all the objects' actions, object by object. */
  function AllCurves(objs: seq<SceneObject>): seq<FCurve>
    reads objs
  {
    if objs == [] then [] else ActionCurves(objs[0]) + AllCurves(objs[1..])
  }

  /**
   * Sets every keyframe of `keys` to `f` of its old value.
   */
  method MapKeys(keys: array<Keyframe>, f: Keyframe -> Keyframe)
    modifies keys
    ensures forall i :: 0 <= i < keys.Length ==> keys[i] == f(old(keys[i]))
  {
    var i := 0;
    while i < keys.Length
      invariant 0 <= i <= keys.Length
      invariant forall k :: 0 <= k < i ==> keys[k] == f(old(keys[k]))
      invariant forall k :: i <= k < keys.Length ==> keys[k] == old(keys[k])
    {
      keys[i] := f(keys[i]);
      i := i + 1;
    }
  }

  /** The keyframes with interpolation and handle types replaced, handles kept. */
  function WithModesAll(ks: seq<Keyframe>, interp: Interpolation, left: HandleType, right: HandleType): (r: seq<Keyframe>)
    ensures |r| == |ks|
    ensures forall i :: 0 <= i < |ks| ==> r[i] == ks[i].WithModes(interp, left, right)
  {
    seq(|ks|, i requires 0 <= i < |ks| => ks[i].WithModes(interp, left, right))
  }

  /**
   * The keyframes of a curve on `dataPath` after the shared easing loop: the
   * modes replaced when the path contains `path`, untouched otherwise.
   */
  function EasedIfPath(ks: seq<Keyframe>, dataPath: string, path: string,
                       interp: Interpolation, left: HandleType, right: HandleType): (r: seq<Keyframe>)
    ensures Contains(dataPath, path) ==> r == WithModesAll(ks, interp, left, right)
    ensures !Contains(dataPath, path) ==> r == ks
  {
    if Contains(dataPath, path) then WithModesAll(ks, interp, left, right) else ks
  }

  /** One curve of the shared easing loop. */
  method SetCurveEasing(c: FCurve, path: string, interp: Interpolation, left: HandleType, right: HandleType)
    modifies c.keys
    ensures c.keys[..] == EasedIfPath(old(c.keys[..]), c.dataPath, path, interp, left, right)
  {
    if Contains(c.dataPath, path) {
      MapKeys(c.keys, (k: Keyframe) => k.WithModes(interp, left, right));
      assert c.keys[..] == WithModesAll(old(c.keys[..]), interp, left, right);
    }
  }

  /** The curves after the easing loop the camera and text operators share. */
  function EaseView(v: seq<Curve>, path: string, interp: Interpolation, left: HandleType, right: HandleType): (r: seq<Curve>)
    ensures |r| == |v|
    ensures forall i :: 0 <= i < |v| ==>
      r[i] == v[i].(keys := EasedIfPath(v[i].keys, v[i].dataPath, path, interp, left, right))
  {
    seq(|v|, i requires 0 <= i < |v| => v[i].(keys := EasedIfPath(v[i].keys, v[i].dataPath, path, interp, left, right)))
  }

  /**
   * The easing loop the camera and text operators share: every keyframe of a
   * curve whose data path contains `path` gets `interp` and the two handle
   * types; handle positions and all other curves are left as they were.
   */
  method SetCurvesEasing(cs: seq<FCurve>, path: string, interp: Interpolation, left: HandleType, right: HandleType)
    requires DistinctKeys(cs)
    modifies KeyArrays(cs)
    ensures View(cs) == EaseView(old(View(cs)), path, interp, left, right)
  {
    var j := 0;
    while j < |cs|
      invariant 0 <= j <= |cs|
      invariant forall m :: 0 <= m < j ==>
        cs[m].keys[..] == EasedIfPath(old(cs[m].keys[..]), cs[m].dataPath, path, interp, left, right)
      invariant forall m :: j <= m < |cs| ==> cs[m].keys[..] == old(cs[m].keys[..])
    {
      SetCurveEasing(cs[j], path, interp, left, right);
      j := j + 1;
    }
  }

  /** A pointwise map that keeps every point's frame commutes with finding the key on a frame. */
  lemma {:induction false} KeyOfFramePointwise(ks: seq<Keyframe>, r: seq<Keyframe>, f: Keyframe -> Keyframe, g: int)
    requires |r| == |ks|
    requires forall i :: 0 <= i < |ks| ==> r[i] == f(ks[i]) && r[i].co == ks[i].co
    ensures KeyOfFrame(r, g) == if KeyOfFrame(ks, g).Some? then Some(f(KeyOfFrame(ks, g).value)) else None
  {
    if ks != [] {
      assert forall i :: 0 <= i < |ks[1..]| ==> r[1..][i] == r[i + 1] && ks[1..][i] == ks[i + 1];
      KeyOfFramePointwise(ks[1..], r[1..], f, g);
    }
  }

  /**
   * After the easing loop the key on a (channel, frame) pair is the old one
   * with the loop's modes when the channel's path contains `path`, and the
   * old one otherwise.
   */
  lemma EaseViewAt(v: seq<Curve>, path: string, interp: Interpolation, left: HandleType, right: HandleType,
                   path2: string, c: int, g: int)
    ensures var k := KeyAt(v, path2, c, g);
      KeyAt(EaseView(v, path, interp, left, right), path2, c, g)
        == if k.Some? && Contains(path2, path) then Some(k.value.WithModes(interp, left, right)) else k
  {
    var r := EaseView(v, path, interp, left, right);
    var p := ChannelIndex(v, path2, c);
    ChannelIndexFirst(v, path2, c);
    ChannelIndexIs(r, path2, c, p);
    if p >= 0 {
      if Contains(path2, path) {
        KeyOfFramePointwise(v[p].keys, r[p].keys, (k: Keyframe) => k.WithModes(interp, left, right), g);
      } else {
        KeyOfFramePointwise(v[p].keys, r[p].keys, (k: Keyframe) => k, g);
      }
    }
  }

  /**
   * A logged key that no later entry overwrites is present after the inserts
   * and the easing loop, with its value and, when its property's path
   * contains `path`, the loop's modes.
   */
  lemma EasedLogKeys(v: seq<Curve>, log: seq<KeyInsert>, i: int, c: int,
                     path: string, interp: Interpolation, left: HandleType, right: HandleType)
    requires 0 <= i < |log| && 0 <= c < 3 && log[i].value.VectorValue? && Contains(log[i].dataPath, path)
    requires forall j :: i < j < |log| && log[j].value.VectorValue? ==>
      log[j].dataPath != log[i].dataPath || log[j].frame != log[i].frame
    ensures HasKey(EaseView(InsertLog(v, log), path, interp, left, right), log[i].dataPath, c, log[i].frame,
                   Component(log[i].value.v, c), interp, left, right)
  {
    InsertLogKeys(v, log, i, c);
    EaseViewAt(InsertLog(v, log), path, interp, left, right, log[i].dataPath, c, log[i].frame);
  }

  /** The inserts of a property at `a` on frame `f0`, then at `b` on frame `f1`. */
  function KeyPair(path: string, f0: int, a: Vec3, f1: int, b: Vec3): seq<KeyInsert> {
    [KeyInsert(path, f0, VectorValue(a)), KeyInsert(path, f1, VectorValue(b))]
  }

  /** The curves after a key pair are those after its first insert, then its second. */
  lemma {:induction false} InsertLogPair(v: seq<Curve>, path: string, f0: int, a: Vec3, f1: int, b: Vec3)
    ensures InsertLog(v, KeyPair(path, f0, a, f1, b))
         == InsertEntry(InsertEntry(v, KeyInsert(path, f0, VectorValue(a))), KeyInsert(path, f1, VectorValue(b)))
  {
    var log := KeyPair(path, f0, a, f1, b);
    assert log[..1] == [log[0]] && [log[0]][..0] == [];
    calc {
      InsertLog(v, log);
      InsertEntry(InsertLog(v, [log[0]]), log[1]);
      InsertEntry(InsertEntry(InsertLog(v, []), log[0]), log[1]);
    }
  }

  /** The curves after three inserts are those after each of them in turn. */
  lemma InsertLogThree(v: seq<Curve>, e0: KeyInsert, e1: KeyInsert, e2: KeyInsert)
    ensures InsertLog(v, [e0, e1, e2]) == InsertEntry(InsertEntry(InsertEntry(v, e0), e1), e2)
  {
    InsertLogSnoc(v, [], e0);
    assert [] + [e0] == [e0];
    InsertLogSnoc(v, [e0], e1);
    assert [e0] + [e1] == [e0, e1];
    InsertLogSnoc(v, [e0, e1], e2);
    assert [e0, e1] + [e2] == [e0, e1, e2];
  }

  /** The three channel curves of `path`, each with the single key of one insert. */
  function NewCurves(path: string, f: int, a: Vec3): seq<Curve> {
    [Curve(path, 0, [NewKey(f, a.x)]), Curve(path, 1, [NewKey(f, a.y)]), Curve(path, 2, [NewKey(f, a.z)])]
  }

  lemma InsertOnNewCurves(v: seq<Curve>, path: string, f: int, a: Vec3)
    requires forall i :: 0 <= i < |v| ==> v[i].dataPath != path
    ensures InsertVector(v, path, f, a) == v + NewCurves(path, f, a)
  {
    var w1 := v + [Curve(path, 0, [NewKey(f, a.x)])];
    var w2 := w1 + [Curve(path, 1, [NewKey(f, a.y)])];
    ChannelIndexIs(v, path, 0, -1);
    ChannelIndexIs(w1, path, 1, -1);
    ChannelIndexIs(w2, path, 2, -1);
  }

  lemma InsertKeyOne(k: Keyframe, frame: int, y: real)
    ensures |InsertKey([k], frame, y)| == if k.co.x == frame as real then 1 else 2
  {
    var ks := [k];
    assert ks[0] == k && ks[1..] == [];
    if k.co.x < frame as real {
      assert InsertKey(ks, frame, y) == [k] + InsertKey([], frame, y);
    }
  }

  /** The three channel curves of `path` after two inserts on curves that had none. */
  function KeyPairCurves(path: string, f0: int, a: Vec3, f1: int, b: Vec3): (r: seq<Curve>)
    ensures |r| == 3
  {
    [Curve(path, 0, InsertKey([NewKey(f0, a.x)], f1, b.x)),
     Curve(path, 1, InsertKey([NewKey(f0, a.y)], f1, b.y)),
     Curve(path, 2, InsertKey([NewKey(f0, a.z)], f1, b.z))]
  }

  /** Channel `c` of the curves after two inserts holds both keys of that channel. */
  lemma KeyPairCurveAt(path: string, f0: int, a: Vec3, f1: int, b: Vec3, c: int)
    requires 0 <= c < 3
    ensures KeyPairCurves(path, f0, a, f1, b)[c]
         == Curve(path, c, InsertKey([NewKey(f0, Component(a, c))], f1, Component(b, c)))
  {
  }

  lemma {:induction false} KeyPairLog(v: seq<Curve>, path: string, f0: int, a: Vec3, f1: int, b: Vec3)
    requires forall i :: 0 <= i < |v| ==> v[i].dataPath != path
    ensures InsertLog(v, KeyPair(path, f0, a, f1, b)) == v + KeyPairCurves(path, f0, a, f1, b)
  {
    calc {
      InsertLog(v, KeyPair(path, f0, a, f1, b));
      { InsertLogPair(v, path, f0, a, f1, b); }
      InsertVector(InsertVector(v, path, f0, a), path, f1, b);
      { InsertOnNewCurves(v, path, f0, a); }
      InsertVector(v + NewCurves(path, f0, a), path, f1, b);
      { InsertOnOwnCurves(v, path, f0, a, f1, b); }
      v + KeyPairCurves(path, f0, a, f1, b);
    }
  }

  lemma InsertOnOwnCurves(v: seq<Curve>, path: string, f0: int, a: Vec3, f1: int, b: Vec3)
    requires forall i :: 0 <= i < |v| ==> v[i].dataPath != path
    ensures InsertVector(v + NewCurves(path, f0, a), path, f1, b) == v + KeyPairCurves(path, f0, a, f1, b)
  {
    var n := |v|;
    var w0 := v + NewCurves(path, f0, a);
    ChannelIndexIs(w0, path, 0, n);
    var w1 := w0[n := Curve(path, 0, InsertKey([NewKey(f0, a.x)], f1, b.x))];
    ChannelIndexIs(w1, path, 1, n + 1);
    var w2 := w1[n + 1 := Curve(path, 1, InsertKey([NewKey(f0, a.y)], f1, b.y))];
    ChannelIndexIs(w2, path, 2, n + 2);
  }

  /**
   * Two inserts of a property none of whose curves exist yet append its
   * three channel curves, each holding one key per distinct frame with the
   * value of the later insert on it. The easing loop on the property then
   * gives every one of those keys its modes and leaves the other curves
   * alone.
   */
  lemma {:induction false} KeyPairOnNewCurves(v: seq<Curve>, path: string, f0: int, a: Vec3, f1: int, b: Vec3,
                                              interp: Interpolation, left: HandleType, right: HandleType)
    requires forall i :: 0 <= i < |v| ==> !Contains(v[i].dataPath, path)
    ensures var r := EaseView(InsertLog(v, KeyPair(path, f0, a, f1, b)), path, interp, left, right);
      |r| == |v| + 3 && r[..|v|] == v && PairKeyed(r, |v|, path, f0, a, f1, b, interp, left, right)
  {
    ContainsSelf(path);
    assert forall i :: 0 <= i < |v| ==> v[i].dataPath != path;
    KeyPairLog(v, path, f0, a, f1, b);
    var r := EaseView(InsertLog(v, KeyPair(path, f0, a, f1, b)), path, interp, left, right);
    assert r[..|v|] == v;
    forall c | 0 <= c < 3
      ensures NewChannelShape(r, |v|, path, f0, f1, interp, left, right, c)
      ensures HasKey(r, path, c, f1, Component(b, c), interp, left, right)
      ensures f0 != f1 ==> HasKey(r, path, c, f0, Component(a, c), interp, left, right)
    {
      KeyPairCurveAt(path, f0, a, f1, b, c);
      NewChannelShapeHolds(InsertLog(v, KeyPair(path, f0, a, f1, b)), |v|, path, f0, a, f1, b, interp, left, right, c);
      NewChannelKeys(v, path, f0, a, f1, b, interp, left, right, c);
    }
  }

  lemma NewChannelShapeHolds(u: seq<Curve>, n: int, path: string, f0: int, a: Vec3, f1: int, b: Vec3,
                             interp: Interpolation, left: HandleType, right: HandleType, c: int)
    requires 0 <= n + c < |u| && 0 <= c < 3
    requires u[n + c] == Curve(path, c, InsertKey([NewKey(f0, Component(a, c))], f1, Component(b, c)))
    ensures NewChannelShape(EaseView(u, path, interp, left, right), n, path, f0, f1, interp, left, right, c)
  {
    var ks := InsertKey([NewKey(f0, Component(a, c))], f1, Component(b, c));
    ContainsSelf(path);
    var eased := WithModesAll(ks, interp, left, right);
    assert EaseView(u, path, interp, left, right)[n + c] == Curve(path, c, eased);
    InsertKeyOne(NewKey(f0, Component(a, c)), f1, Component(b, c));
    forall k | k in eased ensures k.interpolation == interp && k.leftType == left && k.rightType == right {
      var i :| 0 <= i < |eased| && eased[i] == k;
    }
  }

  lemma NewChannelKeys(v: seq<Curve>, path: string, f0: int, a: Vec3, f1: int, b: Vec3,
                       interp: Interpolation, left: HandleType, right: HandleType, c: int)
    requires 0 <= c < 3
    ensures var r := EaseView(InsertLog(v, KeyPair(path, f0, a, f1, b)), path, interp, left, right);
      HasKey(r, path, c, f1, Component(b, c), interp, left, right)
      && (f0 != f1 ==> HasKey(r, path, c, f0, Component(a, c), interp, left, right))
  {
    var log := KeyPair(path, f0, a, f1, b);
    ContainsSelf(path);
    EasedLogKeys(v, log, 1, c, path, interp, left, right);
    if f0 != f1 {
      EasedLogKeys(v, log, 0, c, path, interp, left, right);
    }
  }

  /**
   * Curves `n` to `n + 2` of `r` are the three channels of `path`, each with
   * one key on each of the distinct frames `f0` and `f1`, the key on `f1`
   * holding that channel of `b` and the key on `f0` (when `f0 != f1`) that
   * channel of `a`, all with the given modes.
   */
  predicate PairKeyed(r: seq<Curve>, n: int, path: string, f0: int, a: Vec3, f1: int, b: Vec3,
                      interp: Interpolation, left: HandleType, right: HandleType)
  {
    forall c :: 0 <= c < 3 ==>
      NewChannelShape(r, n, path, f0, f1, interp, left, right, c)
      && HasKey(r, path, c, f1, Component(b, c), interp, left, right)
      && (f0 != f1 ==> HasKey(r, path, c, f0, Component(a, c), interp, left, right))
  }

  /**
   * Curve `n + c` of `r` is channel `c` of `path`, with one key on each of
   * the distinct frames among `f0` and `f1`, all with the given modes.
   */
  predicate NewChannelShape(r: seq<Curve>, n: int, path: string, f0: int, f1: int,
                            interp: Interpolation, left: HandleType, right: HandleType, c: int)
  {
    0 <= n + c < |r|
    && r[n + c].dataPath == path && r[n + c].arrayIndex == c
    && |r[n + c].keys| == (if f0 == f1 then 1 else 2)
    && (forall k :: k in r[n + c].keys ==> k.interpolation == interp && k.leftType == left && k.rightType == right)
  }

  /**
   * Logged keys of one property on pairwise distinct frames all survive the
   * inserts and the easing loop on that property, each with its value and
   * the loop's modes.
   */
  lemma EasedDistinctLog(v: seq<Curve>, log: seq<KeyInsert>, path: string,
                         interp: Interpolation, left: HandleType, right: HandleType)
    requires forall i :: 0 <= i < |log| ==> log[i].dataPath == path && log[i].value.VectorValue?
    requires forall i, j :: 0 <= i < j < |log| ==> log[i].frame != log[j].frame
    ensures forall i, c :: 0 <= i < |log| && 0 <= c < 3 ==>
      HasKey(EaseView(InsertLog(v, log), path, interp, left, right), path, c, log[i].frame,
             Component(log[i].value.v, c), interp, left, right)
  {
    ContainsSelf(path);
    forall i, c | 0 <= i < |log| && 0 <= c < 3
      ensures HasKey(EaseView(InsertLog(v, log), path, interp, left, right), path, c, log[i].frame,
                     Component(log[i].value.v, c), interp, left, right)
    {
      EasedLogKeys(v, log, i, c, path, interp, left, right);
    }
  }
}
