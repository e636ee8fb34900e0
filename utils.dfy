/**
 * The render and project utilities: the render-preset table with the two
 * output-format variants of the still and animation renders, the MP4, GIF
 * and preview exports that overwrite render settings and restore a saved
 * part of them after rendering, the template-name table and sanitiser,
 * batch renaming and the scene optimiser's frame-range rule.
 *
 * A render call is modelled by returning the render settings in force at
 * the moment it is made; the directory of the open .blend file (the host's
 * `abspath("//")`) is a parameter.
 */
module Utils {
  import opened Strings
  import opened Anim


  /** The part of a scene's render settings the operators read and write. */
  datatype RenderSettings = RenderSettings(
    resolutionX: int,
    resolutionY: int,
    fps: int,
    fileFormat: string,
    colorMode: string,
    ffmpegFormat: string,
    codec: string,
    constantRateFactor: string,
    filepath: string,
    useMotionBlur: bool,
    useFreestyle: bool)

  /** `os.path.join(a, b)` on POSIX paths. */
  function PathJoin(a: string, b: string): (p: string)
    ensures StartsWith(b, "/") ==> p == b
    ensures !StartsWith(b, "/") ==> EndsWith(p, b) && StartsWith(p, a)
  {
    if StartsWith(b, "/") then b
    else if a == "" || a[|a| - 1] == '/' then a + b
    else a + "/" + b
  }

  /** The resolution and frame rate a named preset fixes. */
  datatype Size = Size(x: int, y: int, fps: int)

  /**
   * The preset table: the vertical formats REEL and STORY, SQUARE and
   * LANDSCAPE; every other preset (such as CUSTOM) fixes nothing.
   */
  function PresetSize(preset: string): (r: Option<Size>)
    ensures preset == "REEL" || preset == "STORY" <==> r == Some(Size(1080, 1920, 30))
    ensures preset == "SQUARE" <==> r == Some(Size(1080, 1080, 30))
    ensures preset == "LANDSCAPE" <==> r == Some(Size(1920, 1080, 30))
    ensures r.Some? ==> (r.value.fps == 30 && (r.value.x <= r.value.y <==> preset != "LANDSCAPE"))
  {
    match preset
    case "REEL" => Some(Size(1080, 1920, 30))
    case "SQUARE" => Some(Size(1080, 1080, 30))
    case "STORY" => Some(Size(1080, 1920, 30))
    case "LANDSCAPE" => Some(Size(1920, 1080, 30))
    case _ => None
  }

  /**
   * The settings with the preset's resolution and frame rate, every other
   * field kept; a preset outside the table leaves the settings as they were.
   */
  function Resized(r: RenderSettings, preset: string): (s: RenderSettings)
    ensures PresetSize(preset).None? ==> s == r
    ensures PresetSize(preset).Some? ==>
      var z := PresetSize(preset).value;
      s.resolutionX == z.x && s.resolutionY == z.y && s.fps == z.fps
    ensures s.(resolutionX := r.resolutionX, resolutionY := r.resolutionY, fps := r.fps) == r
  {
    match PresetSize(preset)
    case None => r
    case Some(z) => r.(resolutionX := z.x, resolutionY := z.y, fps := z.fps)
  }

  /** The down-scale choices of the GIF export. */
  datatype GifQuality = High | Medium | Low

  function GifScale(q: GifQuality): (k: real)
    ensures 0.0 < k <= 1.0
    ensures q == High <==> k == 1.0
  {
    match q
    case High => 1.0
    case Medium => 0.75
    case Low => 0.5
  }

  /**
   * `int(res * k)`: a non-negative resolution scaled by a factor between 0 and
   * 1 stays between 0 and itself, and the factor 1 keeps it.
   */
  function ScaledDim(res: int, k: real): (d: int)
    ensures res >= 0 && 0.0 <= k <= 1.0 ==> 0 <= d <= res
    ensures k == 1.0 ==> d == res
  {
    var x := res as real * k;
    if k == 1.0 then
      TruncWhole(res);
      Trunc(x)
    else if res >= 0 && 0.0 <= k <= 1.0 then
      ScaleWithin(res as real, k);
      Trunc(x)
    else
      Trunc(x)
  }

  lemma TruncWhole(n: int)
    ensures Trunc(n as real * 1.0) == n
  {
    assert n as real * 1.0 == n as real;
  }

  lemma ScaleWithin(a: real, k: real)
    requires a >= 0.0 && 0.0 <= k <= 1.0
    ensures 0.0 <= a * k <= a
  {
    assert a - a * k == a * (1.0 - k);
  }

  /** The frame-step choices of the quick preview. */
  datatype PreviewStep = EveryFrame | Every2nd | Every3rd | Every5th

  function StepFrames(s: PreviewStep): (n: int)
    ensures n in {1, 2, 3, 5}
  {
    match s
    case EveryFrame => 1
    case Every2nd => 2
    case Every3rd => 3
    case Every5th => 5
  }

  /** The scene: its render settings, timeline and keyframing tool settings. */
  class Scene {
    const name: string
    var renderPreset: string
    var render: RenderSettings
    var frameStart: int
    var frameEnd: int
    var frameStep: int
    var useKeyframeInsertAuto: bool
    var keyframeType: string

    constructor (n: string, preset: string, r: RenderSettings)
      ensures name == n && renderPreset == preset && render == r
      ensures frameStart == 1 && frameEnd == 250 && frameStep == 1
      ensures !useKeyframeInsertAuto && keyframeType == "KEYFRAME"
    {
      name, renderPreset, render := n, preset, r;
      frameStart, frameEnd, frameStep := 1, 250, 1;
      useKeyframeInsertAuto, keyframeType := false, "KEYFRAME";
    }

    /** Writes the preset's resolution and frame rate into the render settings. */
    method ApplyPresetSize()
      modifies this`render
      ensures render == Resized(old(render), renderPreset)
    {
      if renderPreset == "REEL" {
        render := render.(resolutionX := 1080, resolutionY := 1920, fps := 30);
      } else if renderPreset == "SQUARE" {
        render := render.(resolutionX := 1080, resolutionY := 1080, fps := 30);
      } else if renderPreset == "STORY" {
        render := render.(resolutionX := 1080, resolutionY := 1920, fps := 30);
      } else if renderPreset == "LANDSCAPE" {
        render := render.(resolutionX := 1920, resolutionY := 1080, fps := 30);
      }
    }

    /** The still render's `apply_render_preset`: the preset size, then PNG with alpha. */
    method ApplyStillPreset()
      modifies this`render
      ensures render == Resized(old(render), renderPreset).(fileFormat := "PNG", colorMode := "RGBA")
    {
      ApplyPresetSize();
      render := render.(fileFormat := "PNG");
      render := render.(colorMode := "RGBA");
    }

    /** The animation render's `apply_render_preset`: the preset size, then H.264 in MPEG-4. */
    method ApplyAnimationPreset()
      modifies this`render
      ensures render == Resized(old(render), renderPreset).(
        fileFormat := "FFMPEG", ffmpegFormat := "MPEG4", codec := "H264", constantRateFactor := "HIGH")
    {
      ApplyPresetSize();
      render := render.(fileFormat := "FFMPEG");
      render := render.(ffmpegFormat := "MPEG4");
      render := render.(codec := "H264");
      render := render.(constantRateFactor := "HIGH");
    }

    /** Render Still: applies the still preset and renders the current frame. */
    method RenderStill() returns (rendered: RenderSettings)
      modifies this`render
      ensures render == Resized(old(render), renderPreset).(fileFormat := "PNG", colorMode := "RGBA")
      ensures rendered == render
    {
      ApplyStillPreset();
      rendered := render;
    }

    /**
     * Render Animation: applies the animation preset, points the output at
     * `NORENT_{preset}_{scene}` in the `NORENT_Renders` directory and renders.
     */
    method RenderAnimation(blendDir: string) returns (rendered: RenderSettings)
      modifies this`render
      ensures render == Resized(old(render), renderPreset).(
        fileFormat := "FFMPEG", ffmpegFormat := "MPEG4", codec := "H264", constantRateFactor := "HIGH",
        filepath := PathJoin(PathJoin(blendDir, "NORENT_Renders"), "NORENT_" + renderPreset + "_" + name))
      ensures rendered == render
    {
      ApplyAnimationPreset();
      var outputDir := PathJoin(blendDir, "NORENT_Renders");
      var filename := "NORENT_" + renderPreset + "_" + name;
      render := render.(filepath := PathJoin(outputDir, filename));
      rendered := render;
    }

    /**
     * Export MP4: renders with H.264 in MPEG-4 at high quality into
     * `NORENT_Exports`, then restores the file format, the container and the
     * codec. The quality setting and the output path keep their export values.
     */
    method ExportMP4(blendDir: string) returns (rendered: RenderSettings, filename: string)
      modifies this`render
      ensures filename == "NORENT_" + renderPreset + "_" + name + ".mp4"
      ensures rendered == old(render).(fileFormat := "FFMPEG", ffmpegFormat := "MPEG4", codec := "H264",
        constantRateFactor := "HIGH", filepath := PathJoin(PathJoin(blendDir, "NORENT_Exports"), filename))
      ensures render == rendered.(fileFormat := old(render).fileFormat,
        ffmpegFormat := old(render).ffmpegFormat, codec := old(render).codec)
      ensures render.(constantRateFactor := old(render).constantRateFactor, filepath := old(render).filepath)
        == old(render)
    {
      var originalFormat := render.fileFormat;
      var originalFfmpegFormat := render.ffmpegFormat;
      var originalCodec := render.codec;

      render := render.(fileFormat := "FFMPEG");
      render := render.(ffmpegFormat := "MPEG4");
      render := render.(codec := "H264");
      render := render.(constantRateFactor := "HIGH");

      var outputDir := PathJoin(blendDir, "NORENT_Exports");
      filename := "NORENT_" + renderPreset + "_" + name + ".mp4";
      render := render.(filepath := PathJoin(outputDir, filename));

      rendered := render;

      render := render.(fileFormat := originalFormat);
      render := render.(ffmpegFormat := originalFfmpegFormat);
      render := render.(codec := originalCodec);
    }

    /**
     * Export GIF: renders PNG frames at the quality's fraction of the
     * resolution into `NORENT_GIF_Frames`, then restores the file format and
     * the resolution. Only the output path keeps its export value.
     */
    method ExportGIF(quality: GifQuality, blendDir: string) returns (rendered: RenderSettings)
      modifies this`render
      ensures rendered == old(render).(
        resolutionX := ScaledDim(old(render).resolutionX, GifScale(quality)),
        resolutionY := ScaledDim(old(render).resolutionY, GifScale(quality)),
        fileFormat := "PNG",
        filepath := PathJoin(PathJoin(blendDir, "NORENT_GIF_Frames"), "frame_"))
      ensures render == old(render).(filepath := rendered.filepath)
    {
      var originalFormat := render.fileFormat;
      var originalResX := render.resolutionX;
      var originalResY := render.resolutionY;

      var scale: real;
      if quality == High {
        scale := 1.0;
      } else if quality == Medium {
        scale := 0.75;
      } else {
        scale := 0.5;
      }

      assert scale == GifScale(quality);
      render := render.(resolutionX := ScaledDim(originalResX, scale));
      render := render.(resolutionY := ScaledDim(originalResY, scale));
      render := render.(fileFormat := "PNG");

      var outputDir := PathJoin(blendDir, "NORENT_GIF_Frames");
      render := render.(filepath := PathJoin(outputDir, "frame_"));

      rendered := render;

      render := render.(fileFormat := originalFormat);
      render := render.(resolutionX := originalResX);
      render := render.(resolutionY := originalResY);
    }

    /**
     * Quick Preview: renders every `step`-th frame at half resolution as
     * H.264 in MPEG-4 into `NORENT_Previews`, then restores the frame step,
     * the resolution and the file format. The container, the codec and the
     * output path keep their preview values.
     */
    method QuickPreview(step: PreviewStep, blendDir: string) returns (rendered: RenderSettings, renderedStep: int)
      modifies this`render, this`frameStep
      ensures renderedStep == StepFrames(step)
      ensures rendered == old(render).(
        resolutionX := ScaledDim(old(render).resolutionX, 0.5),
        resolutionY := ScaledDim(old(render).resolutionY, 0.5),
        fileFormat := "FFMPEG", ffmpegFormat := "MPEG4", codec := "H264",
        filepath := PathJoin(PathJoin(blendDir, "NORENT_Previews"), "NORENT_Preview_" + name))
      ensures frameStep == old(frameStep)
      ensures render == old(render).(ffmpegFormat := "MPEG4", codec := "H264", filepath := rendered.filepath)
    {
      var originalStep := frameStep;
      var originalFormat := render.fileFormat;
      var originalResX := render.resolutionX;
      var originalResY := render.resolutionY;

      frameStep := StepFrames(step);
      render := render.(resolutionX := ScaledDim(originalResX, 0.5));
      render := render.(resolutionY := ScaledDim(originalResY, 0.5));
      render := render.(fileFormat := "FFMPEG");
      render := render.(ffmpegFormat := "MPEG4");
      render := render.(codec := "H264");

      var outputDir := PathJoin(blendDir, "NORENT_Previews");
      render := render.(filepath := PathJoin(outputDir, "NORENT_Preview_" + name));

      rendered, renderedStep := render, frameStep;

      frameStep := originalStep;
      render := render.(resolutionX := originalResX);
      render := render.(resolutionY := originalResY);
      render := render.(fileFormat := originalFormat);
    }

    /**
     * Optimize Scene: the timeline starts at frame 1 and is at least 300
     * frames long, motion blur and Freestyle are off, and automatic keying
     * is on with the ordinary keyframe type.
     */
    method OptimizeScene()
      modifies this`frameStart, this`frameEnd, this`render, this`useKeyframeInsertAuto, this`keyframeType
      ensures frameStart == 1
      ensures frameEnd >= 300 && frameEnd >= old(frameEnd) && (frameEnd == 300 || frameEnd == old(frameEnd))
      ensures render == old(render).(useMotionBlur := false, useFreestyle := false)
      ensures useKeyframeInsertAuto && keyframeType == "KEYFRAME"
    {
      frameStart := 1;
      if frameEnd < 300 {
        frameEnd := 300;
      }
      render := render.(useMotionBlur := false);
      render := render.(useFreestyle := false);
      useKeyframeInsertAuto := true;
      keyframeType := "KEYFRAME";
    }
  }

  /**
   * Each GIF quality scales a non-negative dimension by an exact integer
   * ratio: HIGH keeps it, MEDIUM takes three quarters and LOW half, both
   * rounded down.
   */
  lemma GifDimension(res: int, q: GifQuality)
    requires res >= 0
    ensures q == High ==> ScaledDim(res, GifScale(q)) == res
    ensures q == Medium ==> ScaledDim(res, GifScale(q)) == (3 * res) / 4
    ensures q == Low ==> ScaledDim(res, GifScale(q)) == res / 2
    ensures 0 <= ScaledDim(res, GifScale(q)) <= res
  {
    var t := ScaledDim(res, GifScale(q));
    var x := res as real * GifScale(q);
    assert t as real <= x < t as real + 1.0;
    if q == Medium {
      var d := (3 * res) / 4;
      assert 4 * d <= 3 * res < 4 * d + 4;
      assert d as real <= x < d as real + 1.0;
    } else if q == Low {
      var d := res / 2;
      assert 2 * d <= res < 2 * d + 2;
      assert d as real <= x < d as real + 1.0;
    }
  }

  /** The characters a saved template's name keeps: ASCII letters and digits, `.`, `_` and `-`. */
  predicate NameChar(c: char) {
    IsAlnum(c) || c in "._-"
  }

  predicate AllNameChars(s: string) {
    forall i :: 0 <= i < |s| ==> NameChar(s[i])
  }

  /** The template-name sanitiser: the name with every other character dropped. */
  function CleanName(s: string): (r: string)
    ensures AllNameChars(r) && |r| <= |s|
    decreases |s|
  {
    if s == [] then []
    else (if NameChar(s[0]) then [s[0]] else []) + CleanName(s[1..])
  }

  /** Sanitising distributes over concatenation. */
  lemma {:induction false} CleanNameAppend(a: string, b: string)
    ensures CleanName(a + b) == CleanName(a) + CleanName(b)
    decreases |a|
  {
    if a == [] {
      assert a + b == b;
    } else {
      var head := if NameChar(a[0]) then [a[0]] else [];
      assert (a + b)[0] == a[0];
      assert (a + b)[1..] == a[1..] + b;
      calc {
        CleanName(a + b);
        head + CleanName(a[1..] + b);
        { CleanNameAppend(a[1..], b); }
        head + (CleanName(a[1..]) + CleanName(b));
        (head + CleanName(a[1..])) + CleanName(b);
        CleanName(a) + CleanName(b);
      }
    }
  }

  /** A name is left as it is exactly when every character is allowed. */
  lemma {:induction false} CleanNameFixpoint(s: string)
    ensures CleanName(s) == s <==> AllNameChars(s)
    decreases |s|
  {
    if s != [] {
      CleanNameFixpoint(s[1..]);
      if !NameChar(s[0]) {
        assert |CleanName(s)| <= |s[1..]| < |s|;
      }
    }
  }

  lemma CleanNameIdempotent(s: string)
    ensures CleanName(CleanName(s)) == CleanName(s)
  {
    CleanNameFixpoint(CleanName(s));
  }

  /** `a` is obtained from `b` by deleting characters. */
  ghost predicate IsSubsequence(a: string, b: string)
    decreases |b|
  {
    a == [] || (b != [] && ((a[0] == b[0] && IsSubsequence(a[1..], b[1..])) || IsSubsequence(a, b[1..])))
  }

  /** The sanitised name is a subsequence of the name: the kept characters stay in order. */
  lemma {:induction false} CleanNameSubsequence(s: string)
    ensures IsSubsequence(CleanName(s), s)
    decreases |s|
  {
    if s != [] {
      CleanNameSubsequence(s[1..]);
      var r := CleanName(s);
      if NameChar(s[0]) {
        assert r[0] == s[0] && r[1..] == CleanName(s[1..]);
        assert IsSubsequence(r[1..], s[1..]);
      } else {
        assert r == CleanName(s[1..]);
        assert IsSubsequence(r, s[1..]);
      }
    }
  }

  /**
   * Every allowed character occurs in the sanitised name as often as in the
   * name, and no other character occurs in it.
   */
  lemma {:induction false} CleanNameCounts(s: string)
    ensures forall c :: multiset(CleanName(s))[c] == if NameChar(c) then multiset(s)[c] else 0
    decreases |s|
  {
    if s != [] {
      CleanNameCounts(s[1..]);
      assert s == [s[0]] + s[1..];
      assert multiset(s) == multiset([s[0]]) + multiset(s[1..]);
      var head := if NameChar(s[0]) then [s[0]] else [];
      assert multiset(CleanName(s)) == multiset(head) + multiset(CleanName(s[1..]));
    }
  }

  /** The file a template is saved to: the sanitised name with `.blend` appended. */
  function TemplateFileName(name: string): (f: string)
    ensures EndsWith(f, ".blend") && AllNameChars(f)
    ensures |f| == |CleanName(name)| + 6
  {
    CleanName(name) + ".blend"
  }

  /** Sanitising a name first does not change the file it is saved to. */
  lemma TemplateFileNameOfClean(name: string)
    ensures TemplateFileName(CleanName(name)) == TemplateFileName(name)
  {
    CleanNameIdempotent(name);
  }

  /** The bundled templates, by their menu key; an unknown key has none. */
  function TemplateFile(key: string): (f: Option<string>)
    ensures key == "LOWER_THIRD" ==> f == Some("lower_third.blend")
    ensures key == "LYRIC_VIDEO" ==> f == Some("lyric_video.blend")
    ensures key == "INTRO_SPLASH" ==> f == Some("intro_splash.blend")
    ensures key == "TRANSITION" ==> f == Some("transition_pack.blend")
    ensures key == "LOGO_REVEAL" ==> f == Some("logo_reveal.blend")
    ensures f.None? <==> key !in {"LOWER_THIRD", "LYRIC_VIDEO", "INTRO_SPLASH", "TRANSITION", "LOGO_REVEAL"}
  {
    match key
    case "LOWER_THIRD" => Some("lower_third.blend")
    case "LYRIC_VIDEO" => Some("lyric_video.blend")
    case "INTRO_SPLASH" => Some("intro_splash.blend")
    case "TRANSITION" => Some("transition_pack.blend")
    case "LOGO_REVEAL" => Some("logo_reveal.blend")
    case _ => None
  }

  /** A stem made of allowed characters is saved to the stem plus `.blend`. */
  lemma TemplateFileNameOfStem(stem: string)
    requires AllNameChars(stem)
    ensures TemplateFileName(stem) == stem + ".blend"
  {
    CleanNameFixpoint(stem);
  }

  /** Load Template's outcome for a menu key: cancelled when the key has no file. */
  function LoadTemplateStatus(key: string): (s: Status)
    ensures s == Cancelled <==> TemplateFile(key).None?
    ensures s != Failed
  {
    if TemplateFile(key).None? then Cancelled else Finished
  }

  /** Joining a relative part onto a directory without a trailing `/` inserts one `/`. */
  lemma PathJoinChild(a: string, b: string)
    requires a != "" && a[|a| - 1] != '/'
    requires b == "" || b[0] != '/'
    ensures PathJoin(a, b) == a + "/" + b
  {
    assert !StartsWith(b, "/") by {
      if b != "" {
        assert b[..1] != "/";
      }
    }
  }

  /** The templates directory: `templates` inside the add-on's own directory. */
  function TemplatesDir(addonDir: string): (d: string)
    ensures StartsWith(d, addonDir) && EndsWith(d, "templates")
    ensures d != "" && d[|d| - 1] == 's'
  {
    var t := "templates";
    assert !StartsWith(t, "/") by {
      assert t[..1][0] == 't';
    }
    var d := PathJoin(addonDir, t);
    assert d[|d| - |t|..] == t;
    assert d[|d| - 1] == t[|t| - 1];
    d
  }

  /**
   * The file Load Template opens for a menu key: the bundled file inside the
   * templates directory, and none for an unknown key.
   */
  function LoadTemplatePath(addonDir: string, key: string): (p: Option<string>)
    ensures p.None? <==> LoadTemplateStatus(key) == Cancelled
    ensures p.Some? ==> p.value == TemplatesDir(addonDir) + "/" + TemplateFile(key).value
  {
    match TemplateFile(key)
    case None => None
    case Some(f) =>
      assert f[0] != '/';
      PathJoinChild(TemplatesDir(addonDir), f);
      Some(PathJoin(TemplatesDir(addonDir), f))
  }

  /**
   * The file Save Template writes: always a direct child of the templates
   * directory, whatever the name typed, since the sanitised file name holds
   * no `/`.
   */
  function SaveTemplatePath(addonDir: string, name: string): (p: string)
    ensures p == TemplatesDir(addonDir) + "/" + TemplateFileName(name)
    ensures '/' !in TemplateFileName(name)
  {
    var f := TemplateFileName(name);
    PathJoinChild(TemplatesDir(addonDir), f);
    PathJoin(TemplatesDir(addonDir), f)
  }

  /** The name Batch Rename gives the `i`-th selected object (counting from 1). */
  function BatchName(prefix: string, base: string, i: nat): string {
    prefix + base + "_" + ZeroPad2(i)
  }

  /**
   * A batch name starts with the prefix, the base name and `_`, and its
   * remaining digits give back the object's number.
   */
  lemma BatchNameNumber(prefix: string, base: string, i: nat)
    ensures var n := BatchName(prefix, base, i); var h := prefix + base + "_";
      StartsWith(n, h) && AllDigits(n[|h|..]) && ParseDigits(n[|h|..]) == i
  {
    var h := prefix + base + "_";
    assert BatchName(prefix, base, i)[|h|..] == ZeroPad2(i);
  }

  /** Different objects of one batch get different names. */
  lemma BatchNamesDistinct(prefix: string, base: string, i: nat, j: nat)
    requires i != j
    ensures BatchName(prefix, base, i) != BatchName(prefix, base, j)
  {
    BatchNameNumber(prefix, base, i);
    BatchNameNumber(prefix, base, j);
  }

  /**
   * Batch Rename: an empty selection is cancelled; otherwise the selected
   * objects are named `prefix + base + "_" + NN` in selection order,
   * numbered from 1.
   */
  method BatchRename(selected: seq<SceneObject>, prefix: string, base: string) returns (status: Status)
    requires forall i, j :: 0 <= i < j < |selected| ==> selected[i] != selected[j]
    modifies selected`name
    ensures status == Finished <==> |selected| > 0
    ensures status == Cancelled <==> |selected| == 0
    ensures forall i :: 0 <= i < |selected| ==> selected[i].name == BatchName(prefix, base, i + 1)
  {
    if |selected| == 0 {
      return Cancelled;
    }
    for i := 0 to |selected|
      invariant forall k :: 0 <= k < i ==> selected[k].name == BatchName(prefix, base, k + 1)
    {
      selected[i].name := prefix + base + "_" + ZeroPad2(i + 1);
    }
    status := Finished;
  }
}
