# pupil3d core, modelled in Dafny

pupil3d reconstructs a scene from the frames of an eye-tracking video and shows it in a
3D browser. It works in two halves:

- **Bundler front end** (`bundle_methods`). It chooses the frames and splits them among
  worker threads. For each photo it computes the focal length in pixels from the EXIF
  data and a camera database, then runs a feature extractor: VLFeat SIFT (two variants)
  or OpenCV SURF. Each extractor rewrites its keypoints in David Lowe's `.key` format.
  Finally the front end writes the sorted photo list and feature list that Bundler reads.
- **3D browser** (`3D_Browser/browser_methods`). It shows Bundler's cameras as pinhole
  cameras: a viewing pyramid per camera, the recorded gaze point, and a gaze cone that
  collects the points of the cloud lying inside it. Around them it adds a camera manager,
  the dense point cloud with its bounding box, a virtual trackball, and an "eye" that
  snaps the view onto a chosen camera.

The model follows the program's structure, one Dafny module per source file:

| module | file | form |
|---|---|---|
| `Bundling` (`bundler.dfy`) | `bundle_methods/__init__.py` | class `Bundler` for the lists the front end appends to; functions and lemmas for the pure parts |
| `LoweFormat` (`lowe_format.dfy`) | the conversion shared by `siftvlfeat.py` and `siftvlfeat2.py` | loop methods proved against the functions that specify the output |
| `SiftVlfeat`, `SiftVlfeatDev`, `SurfCv` | `bundle_methods/features/*.py` | file names and the `extract` methods |
| `Pinhole` (`pinhole.dfy`) | `pinhole.py` | class `Camera` over the flat `array<real>` camera block, which the constructor flips in place |
| `CameraManagement` | `camera_manager.py` | class `CameraManager` with a `seq<Camera>` field |
| `TrackballView` | `trackball.py` | quaternion functions and class `Trackball` |
| `EyeView` | `eye.py` | class `Eye` |
| `PointCloud` | `points.py` | class `Points` and the cloud and box functions |

Shared helper modules:

- `Vectors`: the `_v_*` helpers that `trackball.py` and `eye.py` both define.
- `Geometry`: 3x3 matrices and the OpenGL 4x4 layout.
- `Text`: Python's `str.split`, `" ".join`, `%d`/`%08d`, `.lower()`, `os.path.splitext` and slicing.
- `Sorting`: a stable insertion sort that stands for Python's `sorted`.
- `RealMath`: pi, degrees/radians and truncation toward zero.
- `Optional`: an `Option` type.

Transcendental functions (`sqrt`, `sin`, `cos`, `tan`, `atan2`, `asin`) are not defined
in Dafny's reals. They are the fields of a `MathLib` value that is passed in as a
parameter. `SqrtLaws` states the only law the proofs use: the square root of a
non-negative number squares back to that number.

These things are also parameters:

- the printing of floats (`fmt`, Python's `str`);
- `float()` on a token (`num`);
- the directory listing and `os.path.isfile`;
- the camera-database row;
- OpenGL's viewport size;
- the keypoints and descriptors OpenCV returns.

A Python exception becomes a `false` result flag or a `None`. Any state the source has
already changed when it raises is kept.

Where the source's names, constants or comments suggest otherwise, the model follows the code:

- `_q_add` is not an addition. It is the Hamilton product with its operands swapped: `QAdd(q1, q2) == q2 * q1` (`QAddIsProduct`).
- `drag_to` renormalises when the counter exceeds `_RENORMCOUNT = 97`. That happens on every 98th drag, not every 97th (`CountPeriod`).
- `cone_intersect` first rotates the points by `R` and then subtracts `t`. Only after that does it rotate them into the cone frame (`ConeFrame`).
- The AABB colour `c[0]` is the number `1.0`, so the box is drawn white, not red (`BoxColor`).
- `siftvlfeat2.py` reads `photo + ".jpg.pgm"`, but `process_photos` writes `photo + ".pgm"`, and `photo` already ends in `.jpg` (`SiftVlfeatDev.NamesDiffer`).
- `siftvlfeat2.py` and `surfcv.py` name the Lowe file after the full photo name. `siftvlfeat.py` first drops the extension (`SiftVlfeat.FrameFiles`, `SurfCv.LoweName`).
- `pyramid_angle` can only take its `atan2` branch. `fy` is set equal to `fx`, so `self.fx and self.fy is None` is always false (`FieldAngle`).
- `self.P` is never assigned. So `project` always fails, and so does the factoring fallback of `center()` (`Camera.Project`, `Camera.Center`).

## Model

| member | source | states |
|---|---|---|
| RealMath.Radians | 3D_Browser/browser_methods/graphics/trackball.py:238 | the radian value times 180 equals the degree value times pi |
| RealMath.Degrees | 3D_Browser/browser_methods/graphics/eye.py:118 | `np.degrees` is the inverse of `radians`: converting the result back gives the input |
| RealMath.Trunc | bundle_methods/features/surfcv.py:40 | `np.int32` and `int()` truncate toward zero: the result lies within one unit of the input on the zero side |
| Vectors.AddSub | 3D_Browser/browser_methods/graphics/eye.py:12-15 | subtracting what was added gives the vector back; a difference is zero exactly when the vectors are equal |
| Vectors.MulSquaredLength | 3D_Browser/browser_methods/graphics/eye.py:16-19 | scaling by `s` multiplies the squared length by `s * s` |
| Vectors.CrossOrthogonal | 3D_Browser/browser_methods/graphics/trackball.py:19-22 | the cross product is orthogonal to both of its operands |
| Vectors.Normalize | 3D_Browser/browser_methods/graphics/trackball.py:23-27 | a zero-length vector comes back unchanged (the `ZeroDivisionError` branch); any other vector comes back as a non-zero multiple of itself |
| Vectors.NormalizeUnit | 3D_Browser/browser_methods/graphics/eye.py:24-28 | a non-zero vector normalises to unit length |
| Geometry.Neg | 3D_Browser/browser_methods/cameras/pinhole.py:31 | the negated row cancels the original |
| Geometry.NegMat | 3D_Browser/browser_methods/cameras/pinhole.py:78 | every entry of the matrix is negated |
| Geometry.MatAt | 3D_Browser/browser_methods/cameras/pinhole.py:30 | entry `(i, j)` of the matrix viewed at offset `off` is the stored entry `off + 3i + j` (numpy's row-major view) |
| Geometry.NegateRange | 3D_Browser/browser_methods/cameras/pinhole.py:78 | exactly the entries in `[lo, hi)` change sign; all others stay |
| Geometry.GlLayoutShape | 3D_Browser/browser_methods/cameras/pinhole.py:77-80 | the 4x4 OpenGL matrix holds the 3x3 block in its upper left, zeros in the last column and `(0, 0, 0, 1)` in the last row |
| Sorting.Sort | 3D_Browser/browser_methods/cameras/pinhole.py:286 | `sorted` returns a permutation of its input |
| Sorting.SortSorted | 3D_Browser/browser_methods/cameras/pinhole.py:286 | for a total preorder the result is sorted |
| Sorting.SortStable | 3D_Browser/browser_methods/cameras/pinhole.py:286 | the sort is stable: elements with equal keys keep their relative order |
| Text.SplitJoin | bundle_methods/features/siftvlfeat.py:27-35 | splitting a space-joined list of tokens gives the tokens back |
| Text.SplitTokens | bundle_methods/features/siftvlfeat.py:27 | every field `split()` returns is non-empty and has no whitespace |
| Text.SplitLeadingSpace | bundle_methods/features/surfcv.py:43 | a leading space does not change what `split()` returns |
| Text.NatToStringValue | bundle_methods/features/siftvlfeat.py:25 | `%s` of a count is a decimal numeral that reads back as the count |
| Text.ZeroPad8 | bundle_methods/__init__.py:136 | `%08d` gives digits of value `n`: at least eight of them, and exactly eight below 10^8 |
| Text.IntToString | bundle_methods/features/surfcv.py:45 | `str` of an integer is one token: the decimal numeral, with a `-` in front when the integer is negative |
| Text.Lower | bundle_methods/__init__.py:139 | `.lower()` keeps the length and lowers each ASCII capital |
| Text.Extension | bundle_methods/__init__.py:139 | `os.path.splitext(f)[1]` is a suffix of `f`: either empty, or a dot followed by no dot and no slash |
| Text.DropLast4 | bundle_methods/__init__.py:319 | `photo[:-4]` is the prefix four characters shorter, or empty for a name shorter than four characters |
| Text.Slice | bundle_methods/features/siftvlfeat.py:35 | `s[lo:hi]` with Python's clipping: the in-range part, or empty |
| Text.SliceSplit | bundle_methods/features/siftvlfeat.py:33-36 | consecutive slices concatenate into the slice they span |
| Bundling.ChunkList | bundle_methods/__init__.py:156-162 | `chunk_list` makes `n` threads, and thread `i` is the stride `l[i::n]`; for `n <= 0` it makes none |
| Bundling.StrideAt | bundle_methods/__init__.py:160 | element `k` of `l[i::n]` is `l[i + k*n]` |
| Bundling.StrideLength | bundle_methods/__init__.py:160 | `l[i::n]` has `len(l) / n` elements, plus one when `i < len(l) % n` |
| Bundling.ChunksCover | bundle_methods/__init__.py:156-162 | every photo is in exactly the thread `j % n`, at position `j / n` |
| Bundling.ChunksPlaces | bundle_methods/__init__.py:156-162 | every element of thread `i` is the photo at an index congruent to `i` modulo `n` |
| Bundling.ChunksBalanced | bundle_methods/__init__.py:156-162 | thread sizes differ by at most one, and earlier threads are never smaller |
| Bundling.FrameName | bundle_methods/__init__.py:136 | `"%08d.jpg"` ends in `.jpg` and has twelve characters for indices below 10^8 |
| Bundling.FrameNameInjective | bundle_methods/__init__.py:136 | different frame indices give different names |
| Bundling.FrameNames | bundle_methods/__init__.py:149 | the photo list holds one name per listed frame, in order |
| Bundling.FrameNameIsJpg | bundle_methods/__init__.py:136-139 | a frame name passes the `.jpg` filter |
| Bundling.JpgFilter | bundle_methods/__init__.py:152 | a listing entry is kept exactly when it is a file and its extension lowers to `.jpg` |
| Bundling.JpgFilterInOrder | bundle_methods/__init__.py:152 | the filter keeps the listing order and every passing entry, entry by entry: filtering a concatenation concatenates the filtered parts, and one entry gives itself exactly when it passes |
| Bundling.FocalRational | bundle_methods/__init__.py:258-259 | the EXIF rational becomes `num / den`; a zero denominator raises |
| Bundling.FocalOutcome | bundle_methods/__init__.py:264-296 | `calc_focal_length_pixels` as written appends at most one entry |
| Bundling.FocalOutcomeFixed | bundle_methods/__init__.py:264-296 | with the verbose message repaired, it still appends at most one entry |
| Bundling.VerboseLosesBlankEntry | bundle_methods/__init__.py:291-294 | in verbose mode a photo without a focal length raises and gets no entry; the repaired version appends the blank entry |
| Bundling.FocalOutcomeFixedAgrees | bundle_methods/__init__.py:267-294 | the two versions agree whenever the broken message is not printed |
| Bundling.FocalRules | bundle_methods/__init__.py:267-294 | without a focal length the entry is blank; with one but no database row there is no entry; with make, model, a CCD width and positive focal length, width and height, a non-zero CCD width gives exactly the entry `FocalPixels(…)` and a zero one raises; conversely a measured entry needs all of these, its value times the CCD width is the focal length times the larger image side, and it is positive for a positive CCD width |
| Bundling.StrLeTotal | bundle_methods/__init__.py:192 | Python's string order is total |
| Bundling.StrLeAntisymmetric | bundle_methods/__init__.py:192 | Python's string order is antisymmetric |
| Bundling.StrLeTransitive | bundle_methods/__init__.py:192 | Python's string order is transitive |
| Bundling.EntryLeTotalPreorder | bundle_methods/__init__.py:192 | the tuple order of photo entries (by name, then focal value, with a number before the blank) is a total preorder |
| Bundling.PhotoLineFields | bundle_methods/__init__.py:194 | a list line splits into the name, `0` and the focal value, or just the name and `0` for a blank entry |
| Bundling.FeatureLeTotalPreorder | bundle_methods/__init__.py:196 | the tuple order of feature entries is a total preorder |
| Bundling.FrameFeatureLine | bundle_methods/__init__.py:197 | the feature line of frame `i` is its zero-padded number, a dot and the extension |
| Bundling.PhotoListSorted | bundle_methods/__init__.py:192-194 | the photo list is a sorted permutation of the entries, one line per entry |
| Bundling.FeatureListSorted | bundle_methods/__init__.py:196-197 | the feature list is a sorted permutation of the entries, one line per entry |
| Bundling.Bundler.constructor | bundle_methods/__init__.py:68-69 | the photo, photo-list and feature-list fields start empty |
| Bundling.Bundler.LoadData | bundle_methods/__init__.py:126-153 | with a frame file the photos are the frame names; without one they are the filtered listing |
| Bundling.Bundler.CalcFocalLengthPixels | bundle_methods/__init__.py:264-296 | appends exactly the repaired outcome's entries, and succeeds exactly when nothing raises |
| Bundling.Bundler.ExtractFeatures | bundle_methods/__init__.py:317-319 | appends the photo name without its extension, with the extractor's extension |
| Bundling.Bundler.ListFiles | bundle_methods/__init__.py:192-197 | the two written lists are the sorted photo lines and the sorted feature lines |
| LoweFormat.SliceLines | bundle_methods/features/siftvlfeat.py:33-36 | one output line per slice end |
| LoweFormat.SliceLineAt | bundle_methods/features/siftvlfeat.py:33-36 | line `j` joins the fields from the previous end to end `j` |
| LoweFormat.SliceLinesReadBack | bundle_methods/features/siftvlfeat.py:33-36 | for ascending ends, splitting the lines again gives back every field up to the last end, in order |
| LoweFormat.SwapInverse | bundle_methods/features/siftvlfeat.py:29-32 | the x/y swap exchanges the first two fields, keeps the rest, is a permutation and undoes itself |
| LoweFormat.HeaderReadsBack | bundle_methods/features/siftvlfeat.py:25 | the header splits into the feature count, which reads back, and `128` |
| LoweFormat.RecordLines | bundle_methods/features/siftvlfeat.py:26-36 | a feature with at least two fields gives eight lines |
| LoweFormat.RecordReadsBack | bundle_methods/features/siftvlfeat.py:26-36 | the eight lines read back as the swapped fields clipped to 132; a full 132-field feature comes back whole |
| LoweFormat.SplitLines | bundle_methods/features/siftvlfeat.py:22-27 | one field list per line of the VLFeat file |
| LoweFormat.ConcatOrder | bundle_methods/features/siftvlfeat.py:26-36 | record `k` occupies output lines `8k` to `8k + 7` after the header, in input order |
| LoweFormat.FirstShort | bundle_methods/features/siftvlfeat.py:26-31 | the first line with fewer than two fields, at which the swap raises; every line before it has two |
| LoweFormat.Convert | bundle_methods/features/siftvlfeat.py:22-36 | the Lowe file is the header plus the records of the lines before the first short one; the conversion completes exactly when no line is short |
| LoweFormat.ConvertValues | bundle_methods/features/siftvlfeat.py:26-36 | the loop writes the header and one record per line until it reaches a short line |
| LoweFormat.ConvertLine | bundle_methods/features/siftvlfeat.py:29-36 | the swap done in place, then the eight slices, gives the record of the line |
| LoweFormat.WriteRecord | bundle_methods/features/siftvlfeat.py:33-36 | the slice loop writes exactly the slice lines |
| SiftVlfeat.FrameFiles | bundle_methods/features/siftvlfeat.py:15-21 | for a frame, the grey image is the one `process_photos` writes; the Lowe file is the frame's feature-list line; the text and Lowe files differ |
| SiftVlfeat.Extract | bundle_methods/features/siftvlfeat.py:14-40 | the file names, the Lowe lines of the conversion, and whether the text file gets removed (only when the conversion completes) |
| SiftVlfeatDev.NamesDiffer | bundle_methods/features/siftvlfeat2.py:17-20 | the grey image read is never the one written by `process_photos`; for a four-character extension the Lowe name differs from `siftvlfeat.py`'s |
| SiftVlfeatDev.Extract | bundle_methods/features/siftvlfeat2.py:14-39 | the same conversion as `siftvlfeat.py`, under the full-name files |
| SurfCv.LoweName | bundle_methods/features/surfcv.py:38 | the Lowe file has the name `siftvlfeat2.py` gives it |
| SurfCv.HeaderReadsBack | bundle_methods/features/surfcv.py:39 | the header splits into the keypoint count and the descriptor length |
| SurfCv.TruncRow | bundle_methods/features/surfcv.py:40 | `np.int32` truncates every descriptor entry toward zero |
| SurfCv.IntStrings | bundle_methods/features/surfcv.py:45 | `map(str, d)` gives one token per entry |
| SurfCv.DescriptorEnds | bundle_methods/features/surfcv.py:45-47 | seven ascending slice ends, the last one covering the whole descriptor |
| SurfCv.DescriptorReadsBack | bundle_methods/features/surfcv.py:43-47 | the seven space-led lines read back as the whole descriptor, in order, whatever its length |
| SurfCv.KeypointLineReadsBack | bundle_methods/features/surfcv.py:43-44 | the keypoint line splits into mirrored x, y, size and the angle in radians |
| SurfCv.Record | bundle_methods/features/surfcv.py:43-47 | each keypoint writes eight lines |
| SurfCv.Zip | bundle_methods/features/surfcv.py:42 | `zip` pairs keypoints and descriptors up to the shorter list |
| SurfCv.Extract | bundle_methods/features/surfcv.py:19-51 | with no descriptor, `desc[0]` raises and nothing is written; otherwise the header, then one record per zipped pair |
| SurfCv.RecordPlace | bundle_methods/features/surfcv.py:42-47 | keypoint `i` owns lines `8i + 1` to `8i + 8`, and its descriptor lines read back as its truncated descriptor |
| Pinhole.ConstructedPose | 3D_Browser/browser_methods/cameras/pinhole.py:30-49 | after the constructor, `R` is block rows 1-3 with row 1 negated, `t` is row 4 with its last two entries negated, and row 0 (the focal length) is untouched |
| Pinhole.FlipBlock | 3D_Browser/browser_methods/cameras/pinhole.py:30-33 | the in-place sign flips of `R[1:]` and `t[1:]` on the caller's block |
| Pinhole.RotationMatrixGl | 3D_Browser/browser_methods/cameras/pinhole.py:73-81 | negates the nine entries in place and returns the OpenGL layout of the negated matrix |
| Pinhole.PrepareBlock | 3D_Browser/browser_methods/cameras/pinhole.py:30-49 | the constructor's effect on the block, and `R_gl` is the OpenGL layout of the final `R` |
| Pinhole.Flatten | 3D_Browser/browser_methods/cameras/pinhole.py:221-224 | the nine stored entries view back as the matrix |
| Pinhole.NegatedStorage | 3D_Browser/browser_methods/cameras/pinhole.py:221-224 | `R_cone` read back after `rotation_matrix_gl` is the negated cone rotation |
| Pinhole.FrustumOf | 3D_Browser/browser_methods/cameras/pinhole.py:132-183 | raises exactly on a zero `my_scale` or a zero tangent of the field angle; otherwise gives the angle and the half width and height |
| Pinhole.FrustumDepth | 3D_Browser/browser_methods/cameras/pinhole.py:183 | the image plane sits where the half angle spans the half width |
| Pinhole.LocalCorners | 3D_Browser/browser_methods/cameras/pinhole.py:230-234 | the apex at the origin and the four base corners at depth `-Z`, one per sign combination of `±W`, `±H` |
| Pinhole.PyramidGeometry | 3D_Browser/browser_methods/cameras/pinhole.py:230-241 | in the world, the apex is `t R`; the base is a parallelogram whose centre is the focal point |
| Pinhole.WireVertices | 3D_Browser/browser_methods/cameras/pinhole.py:247-252 | one vertex per listed corner, in order |
| Pinhole.PyramidWireframe | 3D_Browser/browser_methods/cameras/pinhole.py:245-254 | 20 red vertices: the base loop, then four triangles apex–corner–next corner–apex |
| Pinhole.EyeDepthZero | 3D_Browser/browser_methods/cameras/pinhole.py:193-196 | the gaze point lies at the depth spanned by 0.99 of the half width, so its depth is zero exactly when the width is |
| Pinhole.GazeDepthZero | 3D_Browser/browser_methods/cameras/pinhole.py:194-211 | the gaze point has depth zero exactly for an image of zero width, where the cone angles divide by that depth |
| Pinhole.ConeRotationProduct | 3D_Browser/browser_methods/cameras/pinhole.py:211-221 | `R_cone` is `R_y · R_x` for the source's tangent angles, with `pi` added to the x angle |
| Pinhole.ConePoints | 3D_Browser/browser_methods/cameras/pinhole.py:272-274 | every point is moved into the cone frame, in order |
| Pinhole.HitsExact | 3D_Browser/browser_methods/cameras/pinhole.py:278-283 | the hits are exactly the points that pass the cone test, in increasing index order, each with its index and distance |
| Pinhole.SortedHits | 3D_Browser/browser_methods/cameras/pinhole.py:286 | sorting by distance gives a sorted, stable permutation |
| Pinhole.ConeLengthMedian | 3D_Browser/browser_methods/cameras/pinhole.py:299-300 | `cone_len` is a median: no larger than the distances after it, no smaller than those before |
| Pinhole.ConeVertex | 3D_Browser/browser_methods/cameras/pinhole.py:288-294 | the colour is the point's colour divided by 255, with alpha 1 |
| Pinhole.Camera.constructor | 3D_Browser/browser_methods/cameras/pinhole.py:10-49 | every attribute's initial value; the caller's block is flipped in place; `fx == fy` is entry `(0, 0)` |
| Pinhole.Camera.Project | 3D_Browser/browser_methods/cameras/pinhole.py:52-58 | no result without `P`, which is never set; otherwise `P X` divided by its third coordinate, with no result when that coordinate is zero |
| Pinhole.Camera.Center | 3D_Browser/browser_methods/cameras/pinhole.py:115-130 | the stored centre, or a failure, because the factoring fallback needs `P` |
| Pinhole.Camera.MakeGaze | 3D_Browser/browser_methods/cameras/pinhole.py:188-227 | the gaze vertex placed in the world, and a freshly allocated `R_cone` holding the negated cone rotation; the model fails for an image of zero width and then leaves `R_cone` unchanged |
| Pinhole.Camera.MakePyramid | 3D_Browser/browser_methods/cameras/pinhole.py:172-264 | without an image, or when the frustum's float division raises, nothing changes; otherwise `Z`, the gaze part, then the wireframe, the image origin `p[4]`, the extents, the angle, and the world up, focal point and centre; when the model's gaze branch fails (zero width), the pyramid fields are unchanged |
| Pinhole.Camera.BuildPyramid | 3D_Browser/browser_methods/cameras/pinhole.py:183-264 | the part of `make_pyramid` after the frustum is known |
| Pinhole.Camera.StorePyramid | 3D_Browser/browser_methods/cameras/pinhole.py:254-264 | the final assignments of `make_pyramid` |
| Pinhole.Camera.CollectHits | 3D_Browser/browser_methods/cameras/pinhole.py:278-283 | appends exactly the hits, in point order |
| Pinhole.Camera.ConeVertices | 3D_Browser/browser_methods/cameras/pinhole.py:287-294 | one coloured vertex per hit, in order |
| Pinhole.Camera.ConeSummary | 3D_Browser/browser_methods/cameras/pinhole.py:287-303 | the cone vertices, the median length and `r = len · tan(0.75°)`; it fails when a hit's colour is missing |
| Pinhole.Camera.ConeIntersect | 3D_Browser/browser_methods/cameras/pinhole.py:269-303 | without `R_cone` it raises and changes nothing; otherwise the old hits plus the new ones, sorted by distance, then the summary |
| Pinhole.Camera.GetImgScale | 3D_Browser/browser_methods/cameras/pinhole.py:305-306 | returns `img_scale` |
| Pinhole.Camera.SetImgScale | 3D_Browser/browser_methods/cameras/pinhole.py:307-309 | stores the scale and succeeds exactly when the camera has an image, the frustum exists at that scale, and the image has a width if there is a gaze; then it holds that frustum's pyramid. It states `Z`, the gaze vertex and `R_cone`; without a frustum the pyramid, gaze and cone fields are unchanged, and on failure the pyramid fields are |
| CameraManagement.MaskMarks | 3D_Browser/browser_methods/cameras/camera_manager.py:21 | a block is kept exactly when its entries do not sum to zero |
| CameraManagement.Kept | 3D_Browser/browser_methods/cameras/camera_manager.py:20-24 | the kept positions are in range and pass the mask |
| CameraManagement.KeptExact | 3D_Browser/browser_methods/cameras/camera_manager.py:20-24 | exactly the positions that pass the mask, in increasing order |
| CameraManagement.KeptAll | 3D_Browser/browser_methods/cameras/camera_manager.py:20-24 | when no block sums to zero, every position is kept |
| CameraManagement.ZeroBlockSum | 3D_Browser/browser_methods/cameras/camera_manager.py:21-23 | a block Bundler rejected (all zero) sums to zero, so it is dropped |
| CameraManagement.CancellingBlockDropped | 3D_Browser/browser_methods/cameras/camera_manager.py:21 | a block with a non-zero focal length whose entries cancel out is dropped too |
| CameraManagement.Contents | 3D_Browser/browser_methods/cameras/camera_manager.py:20-21 | one block's contents per block, in order |
| CameraManagement.Picked | 3D_Browser/browser_methods/cameras/camera_manager.py:20-24 | the entries at the kept positions, in order |
| CameraManagement.PickedDistinct | 3D_Browser/browser_methods/cameras/camera_manager.py:20-24 | the picked blocks are distinct, and a block not picked is none of them |
| CameraManagement.Zip3 | 3D_Browser/browser_methods/cameras/camera_manager.py:16 | `zip` of three lists runs to the shortest |
| CameraManagement.CameraManager.constructor | 3D_Browser/browser_methods/cameras/camera_manager.py:9-10 | no cameras |
| CameraManagement.CameraManager.AddCam | 3D_Browser/browser_methods/cameras/camera_manager.py:12-13 | appends the camera, ignoring the image |
| CameraManagement.CameraManager.AppendCamera | 3D_Browser/browser_methods/cameras/camera_manager.py:17 | appends one new camera built from the block, the image or `None`, and the frame; it keeps the block, flips it in place, and has the constructor's initial values (`fx == fy` the block's first entry, scale 0.00001, no gaze, an empty cone) |
| CameraManagement.CameraManager.LoadOtherCams | 3D_Browser/browser_methods/cameras/camera_manager.py:15-17 | one new camera per zipped triple, in order, after the old ones, each built as `AppendCamera` builds it from its block, image or `None`, and frame; those blocks are flipped in place and the blocks past the shortest list are untouched |
| CameraManagement.CameraManager.LoadKeyCams | 3D_Browser/browser_methods/cameras/camera_manager.py:19-24 | one new key camera per zipped triple whose block does not sum to zero, in order, built as `AppendCamera` builds it; the blocks not kept are untouched |
| CameraManagement.CameraManager.LoadPicked | 3D_Browser/browser_methods/cameras/camera_manager.py:20-24 | one new camera for each kept position, in order; exactly the kept blocks are flipped |
| CameraManagement.CameraManager.NumCams | 3D_Browser/browser_methods/cameras/camera_manager.py:26-27 | the number of cameras |
| CameraManagement.CameraManager.GetImgScale | 3D_Browser/browser_methods/cameras/camera_manager.py:29-30 | the first camera's scale; raises without cameras |
| CameraManagement.CameraManager.SetImgScale | 3D_Browser/browser_methods/cameras/camera_manager.py:31-33 | every camera before `done` holds the scale and, for its frustum at that scale, `Z`, the gaze vertex, the negated `R_cone` with its OpenGL layout, and the pyramid; on failure camera `done` holds the scale and cannot be rebuilt (no image, no frustum, or zero width with a gaze), keeps `R_cone` and the pyramid, and stores `Z` and the gaze vertex when the frustum exists; the cameras after it are untouched |
| CameraManagement.CameraManager.RebuildAt | 3D_Browser/browser_methods/cameras/camera_manager.py:32-33 | one step of the loop: camera `i` ends rebuilt (`Z`, gaze vertex, `R_cone` and pyramid at the new scale) or failed (scale stored, `R_cone` and pyramid kept), the cameras before it stay rebuilt, and no other camera changes |
| CameraManagement.CameraManager.PyramidShow | 3D_Browser/browser_methods/cameras/camera_manager.py:38-40 | every camera shows its pyramid |
| CameraManagement.CameraManager.ConeShow | 3D_Browser/browser_methods/cameras/camera_manager.py:41-43 | every camera shows its cone |
| CameraManagement.CameraManager.PyramidHide | 3D_Browser/browser_methods/cameras/camera_manager.py:45-47 | no camera shows its pyramid |
| CameraManagement.CameraManager.ConeHide | 3D_Browser/browser_methods/cameras/camera_manager.py:48-50 | no camera shows its cone |
| TrackballView.QAddIsProduct | 3D_Browser/browser_methods/graphics/trackball.py:31-38 | `_q_add(q1, q2)` is the Hamilton product `q2 · q1` |
| TrackballView.QAddIdentity | 3D_Browser/browser_methods/graphics/trackball.py:31-38 | the unit quaternion is neutral on both sides |
| TrackballView.QAddNorm | 3D_Browser/browser_methods/graphics/trackball.py:31-38 | the squared norm of a composition is the product of the squared norms, so unit rotations stay unit |
| TrackballView.QNormalize | 3D_Browser/browser_methods/graphics/trackball.py:45-47 | a zero quaternion comes back unchanged; any other comes back as a non-zero multiple of itself |
| TrackballView.QNormalizeUnit | 3D_Browser/browser_methods/graphics/trackball.py:43-47 | a non-zero quaternion normalises to unit norm |
| TrackballView.QRotMatrix | 3D_Browser/browser_methods/graphics/trackball.py:52-66 | a 16-entry matrix with zero translation and projection entries and 1 in the corner |
| TrackballView.QRotMatrixIdentity | 3D_Browser/browser_methods/graphics/trackball.py:52-66 | the unit quaternion gives the identity matrix |
| TrackballView.ProjectSphere | 3D_Browser/browser_methods/graphics/trackball.py:249-256 | inside the disc of radius `r/√2` the point is lifted onto the sphere of radius `r` |
| TrackballView.ProjectSheet | 3D_Browser/browser_methods/graphics/trackball.py:257-259 | outside it, the point is lifted onto the hyperbolic sheet `z · d = r²/2` |
| TrackballView.ClampUnit | 3D_Browser/browser_methods/graphics/trackball.py:282-283 | clamps to `[-1, 1]` and leaves values inside unchanged |
| TrackballView.AsinArgument | 3D_Browser/browser_methods/graphics/trackball.py:281-283 | the argument passed to `asin` is always in `[-1, 1]` |
| TrackballView.Rotate | 3D_Browser/browser_methods/graphics/trackball.py:263-285 | no motion gives the unit quaternion; otherwise the rotation about the cross product of the two lifted points by twice the `asin` of the clamped chord |
| TrackballView.RotateAxis | 3D_Browser/browser_methods/graphics/trackball.py:277-279 | the rotation axis is orthogonal to both lifted points |
| TrackballView.ToUnit | 3D_Browser/browser_methods/graphics/trackball.py:97-99 | window coordinates map linearly onto `[-1, 1]` |
| TrackballView.StepToUnit | 3D_Browser/browser_methods/graphics/trackball.py:98-100 | steps scale by `2 / size` |
| TrackballView.NextCount | 3D_Browser/browser_methods/graphics/trackball.py:103-106 | the counter stays at most 97 and resets exactly when it would pass 97 |
| TrackballView.CountPeriod | 3D_Browser/browser_methods/graphics/trackball.py:103-106 | after `k` drags the counter is `k mod 98` |
| TrackballView.ClampZoom | 3D_Browser/browser_methods/graphics/trackball.py:185-188 | the zoom is clamped to `[0.25, 100]` |
| TrackballView.DistanceOf | 3D_Browser/browser_methods/graphics/trackball.py:199-201 | the distance is truncated toward zero and at least 1 |
| TrackballView.OrientationClosedForm | 3D_Browser/browser_methods/graphics/trackball.py:233-244 | the closed form of the rotation for `theta` and `phi` |
| TrackballView.Trackball.constructor | 3D_Browser/browser_methods/graphics/trackball.py:73-91 | every initial value, with zoom and distance passed through their setters and the rotation set from the angles |
| TrackballView.Trackball.SetOrientation | 3D_Browser/browser_methods/graphics/trackball.py:233-246 | stores the angles and the composition of the x and z rotations |
| TrackballView.Trackball.DragTo | 3D_Browser/browser_methods/graphics/trackball.py:93-108 | composes the drag rotation onto the current one, normalising when the counter resets; a zero-size viewport raises and changes nothing |
| TrackballView.Trackball.SetZoom | 3D_Browser/browser_methods/graphics/trackball.py:185-188 | the zoom setter clamps |
| TrackballView.Trackball.SetDistance | 3D_Browser/browser_methods/graphics/trackball.py:199-201 | the distance setter truncates and clamps |
| TrackballView.Trackball.ZoomTo | 3D_Browser/browser_methods/graphics/trackball.py:110-114 | zoom becomes the clamped `zoom - 5·dy/height`; a zero height raises and changes nothing |
| TrackballView.Trackball.PanTo | 3D_Browser/browser_methods/graphics/trackball.py:116-125 | the pan step is 0.005 below zoom 1 and 0.01 otherwise |
| TrackballView.Trackball.Show | 3D_Browser/browser_methods/graphics/trackball.py:158-159 | shows the trackball |
| TrackballView.Trackball.Hide | 3D_Browser/browser_methods/graphics/trackball.py:160-161 | hides the trackball |
| EyeView.Eye.constructor | 3D_Browser/browser_methods/graphics/eye.py:35-50 | initial values, with `near` ending at 0.01 |
| EyeView.Eye.SetUp | 3D_Browser/browser_methods/graphics/eye.py:95-96 | `up` is the normalised vector, of unit length unless the vector is zero |
| EyeView.Eye.SetCams | 3D_Browser/browser_methods/graphics/eye.py:104-105 | stores the cameras |
| EyeView.Eye.SetPtAvg | 3D_Browser/browser_methods/graphics/eye.py:109-110 | stores the point offset |
| EyeView.Eye.SetCurrent | 3D_Browser/browser_methods/graphics/eye.py:114-128 | for a valid index, the aperture is twice the camera's angle in degrees, centre and focus are the camera's shifted by the offset, and up is the camera's up minus its centre; otherwise nothing changes; a missing attribute raises |
| EyeView.Eye.Show | 3D_Browser/browser_methods/graphics/eye.py:98-100 | snaps onto the current camera, then shows; when the snap raises, `show` is unchanged |
| EyeView.Eye.Hide | 3D_Browser/browser_methods/graphics/eye.py:101-102 | hides the eye |
| EyeView.SnapFollowsCameraAxes | 3D_Browser/browser_methods/graphics/eye.py:120-126 | after a snap onto a camera with a pyramid, the view direction is the camera's `-z` axis scaled by `Z`, and up is the camera's `y` axis |
| PointCloud.ParseRow | 3D_Browser/browser_methods/points/points.py:30 | a row converts when every token is a number, into those numbers |
| PointCloud.ParseRows | 3D_Browser/browser_methods/points/points.py:30 | the rows convert when every line does, one row per line |
| PointCloud.ReadTable | 3D_Browser/browser_methods/points/points.py:27-30 | the lines after the header form a non-empty rectangular numeric table, or the load raises |
| PointCloud.Columns | 3D_Browser/browser_methods/points/points.py:31-33 | `ply_lines[:, lo:hi]` clips each row to the column range |
| PointCloud.PlyColumnsPartition | 3D_Browser/browser_methods/points/points.py:31-33 | positions, normals and colours together are the whole row |
| PointCloud.SparseColumnsPrefix | 3D_Browser/browser_methods/points/points.py:48-49 | the sparse positions and colours are the first six columns |
| PointCloud.RowVec | 3D_Browser/browser_methods/points/points.py:58 | a three-entry row read as a vector |
| PointCloud.Div255 | 3D_Browser/browser_methods/points/points.py:58 | each colour entry divided by 255 |
| PointCloud.ZipLength | 3D_Browser/browser_methods/points/points.py:57 | `zip` runs to the shorter list |
| PointCloud.Spread3 | 3D_Browser/browser_methods/points/points.py:60 | a record field of three entries holds a three-entry row as it is and a one-entry row repeated, as numpy broadcasts it |
| PointCloud.PointColorRange | 3D_Browser/browser_methods/points/points.py:57-58 | colours in `0..255` become colours in `0..1`, for three-entry and one-entry colour rows |
| PointCloud.Column | 3D_Browser/browser_methods/points/points.py:63-69 | `f_pts[:, j]` |
| PointCloud.MinMaxBounds | 3D_Browser/browser_methods/points/points.py:63-69 | the minimum and maximum bound every entry and are attained |
| PointCloud.SumBounds | 3D_Browser/browser_methods/points/points.py:85 | the sum lies between `n·min` and `n·max` |
| PointCloud.MeanBetween | 3D_Browser/browser_methods/points/points.py:85 | the mean lies between the minimum and maximum |
| PointCloud.BoxEnclosesCloud | 3D_Browser/browser_methods/points/points.py:62-69 | every point lies in the box, and each face of the box touches a point |
| PointCloud.Corner | 3D_Browser/browser_methods/points/points.py:71-72 | corners 0-3 go round the `z_max` face and 4-7 repeat them at `z_min` |
| PointCloud.BoxVerticesUpTo | 3D_Browser/browser_methods/points/points.py:75-82 | the box vertices in the source's order |
| PointCloud.BoxNormals | 3D_Browser/browser_methods/points/points.py:73-80 | 24 vertices, four per face, sharing one axis normal |
| PointCloud.BoxOnFaces | 3D_Browser/browser_methods/points/points.py:71-80 | each vertex lies on the face its normal points out of, and within the box |
| PointCloud.CornersDistinct | 3D_Browser/browser_methods/points/points.py:71-72 | for a box with volume, the eight corners are distinct |
| PointCloud.BoxFaceCorners | 3D_Browser/browser_methods/points/points.py:75-80 | each face has four distinct corners |
| PointCloud.FlatBoxRepeatsCorners | 3D_Browser/browser_methods/points/points.py:75-76 | a flat cloud repeats the front-face corners on the back face |
| PointCloud.OffsetCentres | 3D_Browser/browser_methods/points/points.py:85 | `avg` is minus the centroid, and the centroid lies in the box |
| PointCloud.Points.constructor | 3D_Browser/browser_methods/points/points.py:16-24 | initial values |
| PointCloud.Points.LoadPly | 3D_Browser/browser_methods/points/points.py:26-33 | positions, normals and colours from the table after 13 header lines; on failure nothing changes |
| PointCloud.Points.LoadSparsePly | 3D_Browser/browser_methods/points/points.py:35-49 | positions and colours; it also fails when the vertex count on header line 4 is not an integer |
| PointCloud.Points.MakeVerts | 3D_Browser/browser_methods/points/points.py:53-60 | one vertex per zipped point and colour, a one-entry row spread over the three record entries; fails exactly without loaded data or with a row of neither one nor three entries |
| PointCloud.Points.MakeAabb | 3D_Browser/browser_methods/points/points.py:62-85 | the 24 box vertices of the cloud and minus its centroid; fails without points |
| PointCloud.Points.SetScale | 3D_Browser/browser_methods/points/points.py:90-91 | stores the scale |

## Left out

- OpenGL and glumpy calls are left out: vertex buffers, `push`/`pop` of the eye and the trackball, point smoothing and rendering. Vertex buffers are modelled as the sequences of records they are built from.
- Floating point is not modelled: reals are exact, so numpy's `float32` (`f4`) rounding and Python's float printing are left out. Printing is the `fmt` parameter.
- Transcendental functions are uninterpreted fields of `MathLib`. Only the square-root law is assumed where a lemma needs it.
- File and process I/O is left out: directory changes, `np.load`, image reading and resizing, EXIF tag decoding beyond the focal rational, the SQLite query, gzip, running the SIFT executables, `os.remove`, and logging and `print`. Their results are parameters, and writes are the sequences of lines written.
- Threads are left out. `prepare_photos` runs one `process_photos` per chunk concurrently, and all of them append to shared lists. The model keeps the chunking, and the appends as they would be in any one interleaving.
- `process_photos` is modelled only through its parts: the image resize and the write of the grey image are left out.
- The base class `Sift` (`sift.py`, which defines `fileExtension`) is not part of this model. The extension is a parameter of `ExtractFeatures`.
- The camera database can hold a row whose `ccd_width` is NULL. The model takes the row as a present or absent number, so a NULL CCD width, and the `TypeError` it would raise, are not modelled.
- Negative frame indices in `keyframes.npy` are not modelled: frames are `nat`.
- `Camera.factor`, `rotation_matrix`, `make_P_matrix` and `make_center_ray` are not modelled. `factor` needs the projection matrix, which nothing assigns; the other three are dead code.
- The trackball's `theta`/`phi` properties are not modelled: the getters (`_get_orientation`, which uses `atan`), the setters (which reduce the angles with `math.fmod` before `SetOrientation`) and `__str__`. Neither are the plain aperture, near, far and matrix accessors of the trackball and the eye, the eye's `up_x`/`up_y`/`up_z` accessors, or `_get_cams`.
- `CameraManager.get_cams` is not modelled; it returns the list itself.
- Python's tuple order is modelled for the tuples the lists hold. It compares a float with the blank string `' '` the way Python 2 does, with a number before a string.
- SurfCv.Extract: np.int32 overflow for descriptor entries beyond 32 bits is not modelled, because SIFT descriptor entries are small. `cv2` detection and description are parameters.
- Bundling.FocalOutcome: its own contract says only that at most one entry is appended. What it does is pinned down by `VerboseLosesBlankEntry` and `FocalOutcomeFixedAgrees`.
- CameraManagement.CameraManager.AppendCamera, LoadOtherCams, LoadKeyCams and LoadPicked: a block that is already an earlier camera's `C` is flipped again by the new camera, and in the source the earlier camera's `R` and `t`, numpy views of that block, change with it. The model's `R` and `t` are the values the constructor left, so reusing a block does not move the earlier camera's pose. The browser passes each block to a loader once.
- GazeDepthZero (Pinhole.GazeDepthZero) and the gaze branch of Pinhole.Camera.MakeGaze, Pinhole.Camera.MakePyramid, Pinhole.Camera.SetImgScale and CameraManagement.CameraManager.SetImgScale: the gaze is a pair of numpy `float64` values, so at zero image width the division by the zero depth gives inf or nan instead of raising. The source then raises `ValueError` in `math.tan` only when the half height times `gy` is non-zero, and otherwise goes on with a NaN `R_cone` and a rebuilt pyramid. NaN is not modelled: the model reports failure in both cases and keeps the old pyramid.
- Pinhole.Camera.Project: with a `P`, numpy's in-place division by a zero third coordinate gives inf or nan; the model gives no result there. `P` is never set, so the branch is never reached.
- Pinhole.Camera.Center: it does not model the factoring fallback. That fallback needs `P`, which is never set, so the model states only that there is no result.

## Findings

| source | as written | input that shows it | evidently intended | confidence | as-written member | corrected member |
|---|---|---|---|---|---|---|
| bundle_methods/__init__.py:291-294 | In verbose mode, a photo whose EXIF data has no `FocalLength` reaches the message at line 293. The message reads `p_obj_info`, which is undefined, so `NameError` is raised before the blank entry is appended. | verbose on, EXIF without `FocalLength`, e.g. photo `00000001.jpg` with empty EXIF | print the message from `photo_info`, then append `(name, 0, ' ')` | not executed | Bundling.FocalOutcome, Bundling.VerboseLosesBlankEntry | Bundling.FocalOutcomeFixed, Bundling.FocalRules, Bundling.Bundler.CalcFocalLengthPixels |
