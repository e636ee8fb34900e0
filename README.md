# NO-RENT motion-graphics add-on — a Dafny model

NO-RENT is a Blender add-on for motion graphics. This project models its logic in Dafny and proves properties of that model. Four source files are covered:

- **The keyframe easing engine** (`norent_easing.py`). It places Bezier handles per easing style, scaled by a strength. It rescales a handle to a fixed length along its direction. It infers a style from an F-curve's data path, then applies the cheaper "smart" variant. It copies easing between curves on the same channel, index by index. It resets keyframes to linear. The model includes the operators that run these passes over the curves of the selected objects, with their curve counts.
- **The camera rigs** (`norent_camera_rigs.py`): the shake's integer sample schedule and the range-filtered LINEAR pass over the keys it inserts, the single-axis orbit, and the push-in.
- **The text effects** (`norent_text_fx.py`): the typewriter prefix reveal, the word-by-word reveal, the wipe and slide direction tables, and the bounce and scale-in keys, each followed by its easing pass over the curves the keys land on.
- **The utilities** (`norent_utils.py`):
  - the render-preset table;
  - the MP4, GIF and preview exports, which save and restore render settings;
  - the template table and the template-name sanitiser;
  - batch renaming;
  - the scene optimiser's frame-range rule.

Layout, one module per file:

| file | module | contents |
|---|---|---|
| `strings.dfy` | `Strings` | Python's `in` on strings, ASCII `isalnum`, `split()`/`" ".join`, `{i:02d}` |
| `anim.dfy` | `Anim` | vectors, keyframes, F-curves, scene objects, `keyframe_insert`, `int()`, the shared easing pass |
| `easing.dfy` | `Easing` | the easing engine and its operators |
| `camera_rigs.dfy` | `CameraRigs` | shake, orbit and push-in |
| `text_fx.dfy` | `TextFx` | the text effects |
| `utils.dfy` | `Utils` | render settings, exports, templates, batch rename, scene optimisation |

Modelling choices:

- **Keyframes.** A keyframe point is a value holding its centre `co`, two handles, an interpolation and two handle types. An F-curve is a class holding its data path, its array index and a fixed-size array of keyframes. The easing, copy and reset operators rewrite keyframe fields in place and never add or remove keyframes; the model does the same.
- **Key inserts.** `keyframe_insert` on a vector property creates the object's action when it has none. On each of the property's three channels it replaces the key on the frame, or adds a new BEZIER key with AUTO_CLAMPED handles in frame order, creating the channel's curve when it is missing (`Anim.InsertKey`, `Anim.InsertChannel`). An object's curves after a series of inserts are `InsertLog` of its old curves and the inserted keys; `CurvesOf` views the curves as values.
- **Objects.** Scene objects and the scene are classes whose fields the operators assign.
- **Host calls.** Besides changing the curves, `keyframe_insert` appends the keyed property's value to the object's `keyLog`; a key requested on the text data block (`obj.data.keyframe_insert` on `body`) is recorded in a separate `dataKeyLog`, which `animation_data_clear` on the object leaves alone, and creates no curve. A render call returns the render settings in force when it is made.
- **Exact arithmetic.** Coordinates are exact reals.
- **Vector length.** Normalising a vector needs a square root, so the Euclidean length is a parameter `len`. `IsLength` and `IsLength3` require `len` to be non-negative, zero only at the zero vector, and to square to the dot product.
- **Integer operations.** Python's `//` with a positive divisor is Dafny's `/`. Python's `int()` on a float truncates toward zero; this is `Anim.Trunc`.

Where an operator's own description and its code differ, the model follows the code:

- **Reset.** The reset operator is described as "Reset all keyframes to linear interpolation" (norent_easing.py:299). Its code also sets both handle types to VECTOR, and it counts every curve of every action, including curves with no keyframes.
- **CUSTOM style.** CUSTOM is described as "Custom bezier handles" (norent_easing.py:25), but the code only sets every keyframe to BEZIER and places no handles.

## Model

| member | source | states |
|---|---|---|
| Easing.OvershootHandles | norent_easing.py:128-136 | handles at `co ∓ (0.3s, 0.15s)` |
| Easing.AnticipateHandles | norent_easing.py:138-145 | handles at `co ∓ (0.4s, -0.12s)` (left up, right down) |
| Easing.BounceHandles | norent_easing.py:147-154 | handles at `co ∓ (0.35s, 0.5s)` |
| Easing.ElasticHandles | norent_easing.py:156-163 | handles at `co ∓ (0.6s, -0.48s)` |
| Easing.BackHandles | norent_easing.py:165-172 | handles at `co ∓ (0.15s, 0.3s)` |
| Easing.FreeHandlesShape | norent_easing.py:128-172 | every FREE style is point-symmetric about `co` (`left + right = 2·co`); for `s > 0`, `left.x < co.x < right.x` |
| Easing.FreeHandles | norent_easing.py:85-108 | each FREE style uses its own helper, so its handles sit at exactly that style's offset table entry |
| Easing.Normalized | norent_easing.py:117 | a unit vector collinear with `v`, pointing the same way (`u·v = |v| > 0`); the zero vector for zero |
| Easing.AdjustHandle | norent_easing.py:112-126 | the new handle is at distance `0.5·strength` from `co`, on the line through the old handle and on its side; a handle at `co` stays at `co` |
| Easing.EaseInKey | norent_easing.py:70-73 | VECTOR/AUTO, left handle untouched, right handle rescaled to `0.5·strength` |
| Easing.EaseOutKey | norent_easing.py:75-78 | AUTO/VECTOR, right handle untouched, left handle rescaled |
| Easing.EaseInOutKey | norent_easing.py:80-83 | AUTO/AUTO, both handles rescaled |
| Easing.FreeKey | norent_easing.py:85-108 | FREE/FREE, exact offsets, symmetry about `co`, left before and right after `co` in time for positive strength |
| Easing.EaseKey | norent_easing.py:67-108 | `co` kept and BEZIER set for every style; dispatches each style to its rule; CUSTOM changes nothing but the interpolation |
| Easing.EaseCurve | norent_easing.py:61-110 | fewer than 2 keyframes: unchanged; otherwise every keyframe eased by its style |
| Easing.ApplyEasingToCurve | norent_easing.py:61-110 | returns true exactly when the curve has ≥ 2 keyframes; the keys become `EaseCurve` of the old keys |
| Easing.EligibleCount | norent_easing.py:46-52 | the number of curves the apply loop counts, at most the number of curves |
| Easing.InanimateHaveNoCurves | norent_easing.py:40-44 | when no selected object has animation data (`AnyAnimated` fails) there are no curves to ease, so the cancel loses nothing |
| Easing.ApplyEasingExecute | norent_easing.py:38-59 | cancelled exactly when no selected object is animated; otherwise every curve is eased, and the count is the number of curves with ≥ 2 keyframes |
| Easing.EaseCurves | norent_easing.py:46-52 | the loop over all curves: each curve eased, count of eligible ones |
| Easing.DetermineSmartEasing | norent_easing.py:337-366 | the result is one of four styles. OVERSHOOT ⇔ the path contains "scale". EASE_OUT ⇔ a fade path with ≥ 2 keys and first y < last y. EASE_IN ⇔ a fade path with ≥ 2 keys and not so. EASE_IN_OUT otherwise |
| Easing.SmartEaseKey | norent_easing.py:374-392 | BEZIER; the AUTO/VECTOR styles set only handle types and keep handle positions; OVERSHOOT puts FREE handles at `co ± (0.3, 0.15)` |
| Easing.SmartOvershootIsUnitStrength | norent_easing.py:386-392 | the smart OVERSHOOT equals the engine's OVERSHOOT at strength 1, whatever strength the engine is given |
| Easing.SmartAutoStylesKeepHandles | norent_easing.py:377-385 | for EASE_IN/OUT/IN_OUT the smart variant sets the same modes as the engine, without moving handles |
| Easing.SmartCurve | norent_easing.py:368-394 | curves with fewer than 2 keys unchanged, others keyframe by keyframe |
| Easing.ApplySmartEasing | norent_easing.py:368-394 | returns true exactly for ≥ 2 keyframes; keys become `SmartCurve` of the old keys |
| Easing.SmartEasingExecute | norent_easing.py:322-335 | over the curves of every selected object with an action (objects without one contribute none): each curve gets the style inferred from its own path and old keys; the count is the curves with ≥ 2 keyframes |
| Easing.SmartCurves | norent_easing.py:325-333 | the loops of the smart operator: each curve becomes `SmartCurve` of its old keys under its own inferred style, and the count is `EligibleCount` |
| Easing.CopyKey | norent_easing.py:277-288 | interpolation and both handle types copied verbatim. A FREE source side preserves the offset: `target.h − target.co = source.h − source.co`. Any other side keeps the target handle. The centre is kept |
| Easing.CopyKeyOntoItself | norent_easing.py:277-288 | copying a keyframe's easing onto itself is the identity |
| Easing.CopiedKeys | norent_easing.py:273-288 | only target indices `i < len(source)` change, by `CopyKey` |
| Easing.CopyCurveEasing | norent_easing.py:273-288 | the target's keys become `CopiedKeys` of its old keys |
| Easing.SourceIndex | norent_easing.py:267-270 | the index of a source curve on the target's channel, or −1 when none matches |
| Easing.CopyFromCurve | norent_easing.py:268-290 | only targets on the source's channel (same data path and array index) change; counts them |
| Easing.MatchCount | norent_easing.py:268-290 | the number of target curves on a source curve's channel, which is what the inner loop adds to `copied_count`; never more than the number of targets |
| Easing.MatchCountZero | norent_easing.py:268-290 | no target is counted for a source curve exactly when no target shares its data path and array index |
| Easing.PairCountZero | norent_easing.py:266-290 | the copy count is 0 exactly when no active curve shares a channel with any target curve |
| Easing.PairCountSnoc | norent_easing.py:266-290 | one more target curve adds the number of active curves on its channel to the copy count |
| Easing.MatchCountUnique | norent_easing.py:266-290 | among active curves on distinct channels at most one is on a given target's channel |
| Easing.PairCountAtMostTargets | norent_easing.py:266-290 | with the active curves on distinct channels, the copy count is at most the number of target curves: each target is counted at most once |
| Easing.Others | norent_easing.py:242 | exactly the selected objects other than the active one |
| Easing.CopyCancelledIff | norent_easing.py:244-256 | the copy operator goes ahead exactly when there is an active object whose animation data holds an action and some selected object other than it |
| Easing.CopyEasingExecute | norent_easing.py:240-293 | cancelled, with nothing changed, without an active object that has an action or without another selected object. Otherwise every target curve takes the easing of the active curve on its channel, and the count is the matched pairs |
| Easing.CopyCurves | norent_easing.py:260-290 | the copy loops: every target curve ends as `CopyResult` and the count is `PairCount` |
| Easing.ResetKeys | norent_easing.py:307-310 | LINEAR/VECTOR/VECTOR on every keyframe, centre and handle positions kept |
| Easing.ResetIdempotent | norent_easing.py:304-311 | resetting twice equals resetting once |
| Easing.ResetEasingExecute | norent_easing.py:301-314 | over the curves of every selected object with an action (objects without one contribute none): every keyframe reset, every curve counted, the empty ones too |
| Easing.ResetCurves | norent_easing.py:304-311 | the loops of the reset operator: every curve becomes `ResetKeys` of its old keys, and the count is the number of curves |
| Anim.Trunc | norent_text_fx.py:104 | `int()` truncates toward zero: for `r ≥ 0`, `t ≤ r < t + 1`; for negative `r`, the mirror |
| Anim.TruncMono | norent_text_fx.py:104 | truncation is monotone on non-negative reals |
| Anim.ChannelIndexFirst | norent_camera_rigs.py:398 | the curve a key insert finds for a channel is the first one on that channel; when none is found, no curve is on it |
| Anim.InsertKeyAt | norent_camera_rigs.py:398 | after a key insert on one channel, the key on the frame holds the new value, and the key on every other frame is as before |
| Anim.InsertKeySorted | norent_camera_rigs.py:398 | a key insert keeps the frames strictly increasing, and adds a key exactly when the frame had none |
| Anim.InsertKeyMembers | norent_camera_rigs.py:398 | every key after an insert is an old key or lies on the inserted frame |
| Anim.InsertChannelAt | norent_camera_rigs.py:398 | on a list of curves: the channel's key on the frame holds the value, the curve being created when missing; every other channel and frame is unchanged |
| Anim.InsertVectorAt | norent_camera_rigs.py:398 | a vector insert keys channels 0, 1 and 2 on the frame with the vector's components; every other channel and frame is unchanged |
| Anim.InsertLogKeys | norent_camera_rigs.py:388-402 | after a series of inserts every inserted vector key is present on each channel, holding its value unless a later insert hits the same frame |
| Anim.InsertChannel | norent_camera_rigs.py:398 | the insert on F-curve objects: the new curves are `InsertChannelView` of the old ones, key arrays stay distinct, and each curve is an old one or has a fresh array |
| Anim.InsertVectorCurves | norent_camera_rigs.py:398 | the three channel inserts of a vector property on F-curve objects: the new curves are `InsertVector` of the old ones |
| Anim.SceneObject.KeyframeInsert | norent_camera_rigs.py:398 | the property's current value is logged; the object then has an action, whose curves are the old ones with the key inserted on each of the property's channels |
| Anim.SceneObject.KeyLocation | norent_camera_rigs.py:397-398 | assign the location, then key it: the location is the new value and the curves take the key |
| Anim.SceneObject.KeyScale | norent_text_fx.py:149-150 | assign the scale, then key it: the scale is the new value and the curves take the key |
| Anim.SceneObject.KeyRotation | norent_camera_rigs.py:312-313 | key the rotation: the rotation is the new value and the curves take the key |
| Anim.SceneObject.KeyLocationPair | norent_text_fx.py:227-232 | two location keys in turn: the location ends at the second value and the curves take both keys |
| Anim.SceneObject.KeyRotationPair | norent_camera_rigs.py:311-316 | two rotation keys in turn: the rotation ends at the second value and the curves take both keys |
| Anim.SceneObject.EaseCurves | norent_text_fx.py:236-241 | the effects' easing loop on the object's action: the curves become `EaseView` of the old ones; the object's fields are unchanged |
| Anim.SceneObject.KeyLocationPairEased | norent_text_fx.py:331-344 | on an object with no location curves, two location keys and the easing loop: the old curves are kept in front, followed by three new location channels, each holding exactly the two keys with the given modes |
| Anim.SceneObject.KeyRotationPairEased | norent_camera_rigs.py:311-322 | the same for two rotation keys on an object with no rotation curves |
| Anim.SceneObject.KeyframeInsertBody | norent_text_fx.py:109 | the requested body key is recorded in `dataKeyLog`, apart from the object's own keys (the host's rejection is under "Left out") |
| Anim.SceneObject.ClearAnimationData | norent_camera_rigs.py:214 | no animation data and no keys remain (also norent_text_fx.py:377) |
| Anim.SetCurvesEasing | norent_camera_rigs.py:229-237 | curves whose data path contains the path get the modes on every key; other curves and all handle positions unchanged |
| Anim.SetCurveEasing | norent_camera_rigs.py:229-237 | one curve of that loop: the modes replaced on every key when its data path contains the path, otherwise unchanged |
| Anim.EaseViewAt | norent_camera_rigs.py:229-237 | after the easing loop the key of any channel on any frame has the new modes when the curve's path contains the loop's path, and is otherwise as before |
| Anim.EasedLogKeys | norent_text_fx.py:35-54 | an inserted vector key that no later insert overwrites survives the inserts and the easing loop with its value and the loop's modes |
| Anim.EasedDistinctLog | norent_text_fx.py:150-167 | inserted keys of one property on distinct frames all survive the easing loop on that property, each with its value and the loop's modes |
| Anim.KeyPairOnNewCurves | norent_camera_rigs.py:214-237 | on curves without the path, two inserts and the easing loop keep the old curves in front and append exactly three channels, each with the two keys and the modes |
| Strings.ContainsIffOccurs | norent_easing.py:342 | Python's `sub in s` holds exactly when some window of `s` equals `sub` |
| Strings.Split | norent_text_fx.py:370 | `split()` yields non-empty words free of whitespace |
| Strings.Join | norent_text_fx.py:385 | `" ".join`: empty for no words; otherwise as long as the words together plus one separator between each two, and starting with the first word |
| Strings.SplitJoin | norent_text_fx.py:385 | splitting the space-join of such words gives the words back |
| Strings.JoinPrefixGrows | norent_text_fx.py:385 | the join of a longer prefix of the words extends, and is strictly longer than, the join of a shorter one |
| Strings.ZeroPad2 | norent_utils.py:473 | `{n:02d}`: at least two digits, no leading zero beyond the padding, and the digits parse back to `n` |
| Strings.ParseNatToString | norent_utils.py:473 | the decimal digits of `n` parse back to `n` |
| CameraRigs.ShakeSampleCount | norent_camera_rigs.py:386 | `max(10, duration // 5)`: at least 10 and at least `duration // 5`, and equal to one of them |
| CameraRigs.SampleFrameFloor | norent_camera_rigs.py:389 | sample `i`'s frame is `start + (i·duration) // samples`: the largest frame whose offset from `start`, times `samples`, does not pass `i·duration` |
| CameraRigs.SampleMono | norent_camera_rigs.py:388-389 | sample frames never decrease with the sample index |
| CameraRigs.SampleEnd | norent_camera_rigs.py:388-389 | the last sample frame is `start + duration` |
| CameraRigs.SampleSchedule | norent_camera_rigs.py:388-389 | the first frame is `start`, the last is `start + duration`, the frames are non-decreasing and all lie in that range |
| CameraRigs.ShakeSchedule | norent_camera_rigs.py:386-389 | the same facts hold for the operator's own sample count, which is at least 10 |
| CameraRigs.ShakeOffset | norent_camera_rigs.py:392-396 | for noise in [0, 1] and a non-negative strength, the X and Y offsets lie within ±strength/2 and the Z offset within ±strength/4 |
| CameraRigs.ShakeSamples | norent_camera_rigs.py:388-398 | one key per sample, `shake_samples + 1` in all |
| CameraRigs.ShakeSampleAt | norent_camera_rigs.py:388-398 | sample `i` is a location key on sample frame `i` at the original location plus the noise offset of that frame |
| CameraRigs.ShakeKeyAt | norent_camera_rigs.py:388-398 | every sample key is a location key on its sample frame, inside `[start, start + duration]` |
| CameraRigs.LinearInRange | norent_camera_rigs.py:409-410 | a keyframe with frame in `[lo, hi]` becomes LINEAR; any other is unchanged |
| CameraRigs.LinearPassKeys | norent_camera_rigs.py:408-410 | the range-filtered pass applied to every keyframe of a curve |
| CameraRigs.LinearPassFacts | norent_camera_rigs.py:405-410 | the pass changes nothing but interpolation, each key is LINEAR or unchanged, and a second pass changes nothing more |
| CameraRigs.LinearViewAt | norent_camera_rigs.py:405-410 | after the pass the key of any channel on any frame is the range-filtered old key on location curves, and the old key elsewhere |
| CameraRigs.LinearPass | norent_camera_rigs.py:405-410 | only "location" curves are touched, by the range-filtered pass |
| CameraRigs.ShakeSampleLoop | norent_camera_rigs.py:388-398 | the sample loop logs exactly the sample keys, and the curves take them in order |
| CameraRigs.ShakeInserts | norent_camera_rigs.py:383-402 | the sample keys, then the return key at `start + duration` at the original location, where the camera ends |
| CameraRigs.AddShakeKeyframes | norent_camera_rigs.py:381-410 | the inserts of `ShakeInserts`, then the LINEAR pass over `[start, start + duration]` on the location curves that now hold them |
| CameraRigs.LogKeyLinear | norent_camera_rigs.py:398-410 | any inserted location key inside the range is present on each channel and LINEAR after the pass |
| CameraRigs.ShakeSampleKey | norent_camera_rigs.py:388-410 | after the shake every sample frame holds a LINEAR key on each location channel |
| CameraRigs.LastKeyAfterPass | norent_camera_rigs.py:401-410 | the value of the last insert survives the pass on its frame |
| CameraRigs.ShakeEndKey | norent_camera_rigs.py:401-410 | after the shake the frame `start + duration` holds the original location on each channel |
| CameraRigs.ShakeCurves | norent_camera_rigs.py:381-410 | the shake's curves: a LINEAR key on every sample frame of every location channel, and the original location at the end frame |
| CameraRigs.CameraShake | norent_camera_rigs.py:367-379 | cancelled without a camera. Otherwise the shake keys at the current frame are logged, the curves are the old ones with the keys inserted and the LINEAR pass applied, the camera ends where it was, and no other field changes |
| CameraRigs.RadiansScale | norent_camera_rigs.py:291 | `math.radians`: radians times 180 is degrees times π, 180° is π, and the conversion is odd |
| CameraRigs.AxisVector | norent_camera_rigs.py:298-303 | the axis the angle is added to: a unit basis vector, X for "X", Y for "Y", Z for anything else |
| CameraRigs.EndRotation | norent_camera_rigs.py:297-303 | the end rotation differs from the current rotation only on the chosen axis, by the angle in radians; any axis but X or Y is Z |
| CameraRigs.CameraRotate | norent_camera_rigs.py:275-322 | cancelled without a camera. Otherwise a new empty "NORENT_Camera_Pivot" becomes the camera's parent. It gets two rotation keys, the current rotation at `current` and the end rotation `duration` frames later, on three new rotation curves eased BEZIER/AUTO/AUTO, and ends at the end rotation; the camera's own fields are unchanged |
| CameraRigs.Normalized3Facts | norent_camera_rigs.py:209-210 | the normalised vector has unit length along `v` (`u·v = |v| > 0`), zero for zero |
| CameraRigs.PushEndFacts | norent_camera_rigs.py:208-211 | the end location lies `distance` from the start, along the direction towards the scene centre; a camera at the centre stays put |
| CameraRigs.CameraPushIn | norent_camera_rigs.py:199-227 | cancelled without a camera. Otherwise the animation data is cleared and exactly two location keys, at `current` and `current + duration`, are inserted on three new location curves eased BEZIER/AUTO/AUTO; the camera ends at the push-in end |
| TextFx.TypewriterFrameFloor | norent_text_fx.py:104 | for a positive speed, key `i`'s frame `f ≥ 1` satisfies `(f − 1)·speed ≤ 30·i < f·speed`: one more than the whole frames `i` characters take |
| TextFx.TypewriterFrames | norent_text_fx.py:99-104 | the first typewriter key is at frame 1, and frames are non-decreasing in `i` for positive speed |
| TextFx.TypewriterKeys | norent_text_fx.py:103-109 | `len(text) + 1` body keys, key `i` showing `text[:i]` at frame `int(i / (speed/30)) + 1` |
| TextFx.TypewriterReveal | norent_text_fx.py:103-109 | the bodies are prefixes of length `i` of the text, from empty to the whole text |
| TextFx.CreateTypewriterEffect | norent_text_fx.py:97-109 | the data block's key log grows by exactly the typewriter keys and the body ends as the whole text |
| TextFx.WordKeys | norent_text_fx.py:383-388 | `len(words) + 1` keys, key `i` at `current + i·fpw` showing the first `i` words joined by spaces |
| TextFx.WordReveal | norent_text_fx.py:380-388 | each body extends the previous one and is strictly longer; the first is empty; the last splits back into the words; frames step by `fpw` |
| TextFx.InsertWordKeys | norent_text_fx.py:383-388 | the loop appends exactly the word keys to the data block's key log and leaves the body as all the words joined by spaces |
| TextFx.TextAnimateWords | norent_text_fx.py:363-391 | cancelled with nothing changed unless the object is a text object with ≥ 2 words. Otherwise the object's animation data and keys are cleared and the word keys, `int(delay·30)` frames apart, go to the data block's key log |
| TextFx.WipeOffset | norent_text_fx.py:217-224 | the wipe's start offset by direction, always of length 5 |
| TextFx.SlideOffset | norent_text_fx.py:320-328 | the slide's start offset by direction, always of length 10 |
| TextFx.WipeSlideOpposite | norent_text_fx.py:217-224 | for the four named directions the wipe offset is −½ times the slide offset (lines 320-328) |
| TextFx.WipeCurves | norent_text_fx.py:227-241 | after the wipe's two keys and its easing loop, each location channel holds the offset location at frame 1 and the original location at frame 45, both BEZIER/VECTOR/AUTO |
| TextFx.CreateWipeEffect | norent_text_fx.py:214-241 | a key at frame 1 at the offset location and one at frame 45 back at the original location, inserted into the curves, then BEZIER/VECTOR/AUTO on the location curves |
| TextFx.RemoveCurves | norent_text_fx.py:311-314 | exactly the curves whose data path does not contain the path remain |
| TextFx.RemoveCurvesDistinct | norent_text_fx.py:311-314 | removing curves keeps the remaining key arrays distinct, and takes them from the old ones |
| TextFx.RemoveActionCurves | norent_text_fx.py:311-314 | the action keeps exactly the curves not on the path, their key arrays still distinct |
| TextFx.TextAnimateSlide | norent_text_fx.py:304-347 | cancelled for no text object. Animation data without an action raises (Failed, nothing changed). Otherwise the location curves are removed; the remaining curves stay in front, followed by three new location channels with a key at `current` at the offset location and one 30 frames later at the current location, eased BEZIER/VECTOR/AUTO |
| TextFx.BounceKeys | norent_text_fx.py:149-158 | three scale keys on increasing frames, ending at unit scale; each component starts below its rest value and overshoots above it |
| TextFx.BounceInserts | norent_text_fx.py:149-158 | the three scale keys inserted in turn; the scale ends at 1 |
| TextFx.BounceCurves | norent_text_fx.py:149-167 | after the bounce keys and its easing loop each scale channel holds 0.1 at frame 1, 1.2 at 20 and 1.0 at 35, BEZIER with FREE handles |
| TextFx.CreateBounceEffect | norent_text_fx.py:146-167 | the bounce keys inserted into the curves, then BEZIER with FREE handles on the scale curves; the scale ends at 1 |
| TextFx.ScaleInCurves | norent_text_fx.py:33-54 | after the scale-in keys and its easing loop each scale channel holds 0 at frame 1 and 1 at frame 30, BEZIER/AUTO/AUTO |
| TextFx.AddScaleInAnimation | norent_text_fx.py:33-54 | scale 0 at frame 1 and 1 at frame 30, inserted into the curves, then BEZIER/AUTO/AUTO on the scale curves; the scale ends at 1 |
| Utils.PathJoin | norent_utils.py:110 | `os.path.join`: an absolute second part wins; otherwise the result starts with the first part and ends with the second |
| Utils.PresetSize | norent_utils.py:29-44 | REEL and STORY ⇔ 1080×1920, SQUARE ⇔ 1080×1080, LANDSCAPE ⇔ 1920×1080, all at 30 fps; any other preset fixes nothing |
| Utils.Resized | norent_utils.py:29-44 | a table preset sets resolution and fps; any other preset leaves the settings as they were; no other field changes |
| Utils.Scene.ApplyPresetSize | norent_utils.py:29-44 | the render settings become `Resized` of the old ones |
| Utils.Scene.ApplyStillPreset | norent_utils.py:23-48 | the preset size, then PNG/RGBA |
| Utils.Scene.ApplyAnimationPreset | norent_utils.py:67-96 | the preset size, then FFMPEG/MPEG4/H264/HIGH |
| Utils.Scene.RenderStill | norent_utils.py:13-21 | renders with the still preset applied |
| Utils.Scene.RenderAnimation | norent_utils.py:56-110 | renders with the animation preset and the output at `NORENT_{preset}_{scene}` in `NORENT_Renders` |
| Utils.Scene.ExportMP4 | norent_utils.py:118-151 | renders with FFMPEG/MPEG4/H264/HIGH to `NORENT_{preset}_{scene}.mp4`. Restores file format, container and codec; afterwards only the rate factor and the output path differ from before |
| Utils.GifScale | norent_utils.py:180-185 | the scale is in (0, 1], and 1 exactly for HIGH |
| Utils.ScaledDim | norent_utils.py:187-188 | `int(res·scale)`: a non-negative resolution scaled by a factor in [0, 1] stays between 0 and itself, and the factor 1 keeps it |
| Utils.Scene.ExportGIF | norent_utils.py:170-210 | renders PNG frames at `int(res·scale)`. Then restores the format and the resolution, so only the output path differs from before |
| Utils.GifDimension | norent_utils.py:187-188 | for a non-negative dimension: HIGH keeps it, MEDIUM gives `(3·res) // 4`, LOW `res // 2`; never more than the original |
| Utils.StepFrames | norent_utils.py:388 | the preview step is one of 1, 2, 3, 5 |
| Utils.Scene.QuickPreview | norent_utils.py:378-413 | renders at the chosen step and `int(res·0.5)` as FFMPEG/MPEG4/H264. Restores step, resolution and file format; the container, codec and path keep their preview values |
| Utils.Scene.OptimizeScene | norent_utils.py:328-357 | `frame_start = 1`; `frame_end` becomes `max(frame_end, 300)`; motion blur and Freestyle off; auto keying on with the KEYFRAME type |
| Utils.CleanName | norent_utils.py:309 | only allowed characters (ASCII alphanumerics and `._-`) remain, and the result is no longer than the name |
| Utils.CleanNameAppend | norent_utils.py:309 | sanitising distributes over concatenation, character by character |
| Utils.CleanNameFixpoint | norent_utils.py:309 | a name is unchanged by sanitising exactly when all its characters are allowed |
| Utils.CleanNameIdempotent | norent_utils.py:309 | sanitising twice equals sanitising once |
| Utils.CleanNameSubsequence | norent_utils.py:309 | the sanitised name is a subsequence of the name |
| Utils.CleanNameCounts | norent_utils.py:309 | each allowed character occurs as often as in the name; no other character occurs |
| Utils.TemplateFileName | norent_utils.py:310 | the saved file is the sanitised name plus `.blend`, made only of allowed characters |
| Utils.TemplateFileNameOfClean | norent_utils.py:309-310 | sanitising the name first does not change the saved file |
| Utils.TemplateFileNameOfStem | norent_utils.py:309-310 | a stem of allowed characters is saved as the stem plus `.blend` |
| Utils.TemplateFile | norent_utils.py:246-254 | the five menu keys map to their fixed files; every other key maps to none |
| Utils.TemplatesDir | norent_utils.py:242-243 | the templates directory lies inside the add-on directory and ends in `templates`, with no trailing `/` |
| Utils.LoadTemplatePath | norent_utils.py:254-259 | there is a path exactly when the key is not cancelled, and it is the bundled file directly inside the templates directory |
| Utils.SaveTemplatePath | norent_utils.py:298-311 | the saved file is always a direct child of the templates directory, since the sanitised file name holds no `/` |
| Utils.LoadTemplateStatus | norent_utils.py:254-257 | cancelled exactly when the key has no template file |
| Utils.BatchNameNumber | norent_utils.py:473 | a batch name is `prefix + base + "_"` followed by digits that parse back to the object's number |
| Utils.BatchNamesDistinct | norent_utils.py:472-473 | different numbers give different names |
| Utils.BatchRename | norent_utils.py:465-476 | cancelled exactly for an empty selection; otherwise object `i` (from 1) is named `prefix + base + "_" + {i:02d}` |

## Left out

- Panel UI, add-on registration, workspace setup, timers and the license check: no logic in scope.
- Rendering, file and directory creation, template loading and saving, template existence checks, the scene cleanup purge, the project export: host I/O. A render is a returned snapshot of the settings; the directory of the open .blend file and the add-on's own directory are parameters, and the templates directory and template paths are built from the latter.
- Host object creation and plain property pokes (camera, dolly, empty and particle setup, text sizes and alignment, materials, viewport shading): no logic. The orbit pivot is modelled as a fresh object, so the loop that removes its rotation curves finds none.
- `mathutils.noise` and the handheld driver expressions: noise is a parameter of the shake. The focus pull and the fade/scale text operators (`TextAnimateScale`, `TextAnimateFade`) are not part of this model.
- Floating point: coordinates and offsets are exact reals. IEEE rounding and `NaN` are not modelled.
- Easing.CopyEasingExecute: requires the active object's curves to be on distinct channels, which an action guarantees. It also requires the key arrays of the active object's curves to be disjoint from those of the targets.
- Easing.ApplyEasingExecute, Easing.SmartEasingExecute, Easing.ResetEasingExecute, Easing.CopyEasingExecute: require the key arrays of all the selected objects' curves to be pairwise distinct (`DistinctKeys`). This excludes two selected objects that share one action, such as linked duplicates. On such a selection the source visits the shared action once per object. Apply and smart easing then ease its curves again and count each of them once per object. Reset counts each of its curves once per object. Copy easing onto a shared target action counts its matches once per object.
- Batch rename requires the selected objects to be distinct, as the host's selection is.
- Anim.SceneObject.KeyframeInsert: a new key has its handles at its centre. The host's handle recalculation after an insert, which also moves the handles of neighbouring AUTO keys, is not modelled. Frames are matched exactly, not within the host's small threshold. Only vector properties (location, rotation, scale) create curves.
- TextFx.CreateTypewriterEffect, TextFx.TextAnimateWords, Anim.SceneObject.KeyframeInsertBody: the host does not animate string properties, so its `keyframe_insert` on the text `body` (norent_text_fx.py:109, 388) raises an error on the first call. The typewriter then stops with the body set to "", and the word animation stops after the clear with the body set to "". The model instead records every body key the code requests and lets each effect run to its end, with the body ending as the whole text.
- Utils.BatchRename: the host keeps object names unique, giving a name another object already holds a numeric suffix such as `.001`, and cuts names to 63 bytes. The model assigns exactly the computed names.
- TextFx.TextAnimateSlide: removing location curves while iterating the host's curve collection may skip curves in the host. The model removes every matching curve.
- CameraRigs.ShakeOffset: the bounds are stated for noise values in [0, 1]. The host's Perlin noise can leave that range, and then the offsets do too.
- Strings.IsAlnum: covers ASCII letters and digits only. Python's `isalnum` also accepts other Unicode letters and digits.
- Easing.Normalized, Easing.AdjustHandle, CameraRigs.PushEndFacts: the square root is abstracted as a length function with the properties above. The contracts state the geometry (length, collinearity, orientation) rather than a numeric value.
- Utils.LoadTemplateStatus: covers only the key lookup. The existence check and the append of the template's objects are I/O.
- Utils.GifDimension, Utils.ScaledDim: the bounds are stated for non-negative resolutions, which the host enforces.
