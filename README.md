# PARSEC scripts: marker alignment, tie-point filtering and helpers

This project models, in Dafny, the parts of the PARSEC photogrammetry
scripts that contain logic of their own:

- the marker-based alignment of a Metashape chunk (Temp.py). This covers the
  label lookup of the scene markers, the floor centroid, the reconstruction
  region sized from the cage width, the plane-fit basis with its sign flip
  and cross products, the 4x4 transform and the fudge rotation, and the
  oriented-box test that flags tie points for removal;
- the earlier alignment script (Center.py up to its rotation write). This
  covers the centroid of four markers, the centered marker matrix, the
  sentinel minimum scan over the singular values, and the cross-product
  rotation;
- the raw image helpers (RawUtils.py): the existence checks, the RGGB
  mosaic filled in place by nested loops, and the white-balance decisions;
- the project preferences (ProjectPrefs.py): the allowed-preference table,
  the section and default filling of `readConfig`, and `setPref`/`getPref`,
  together with the `%` interpolation `ConfigParser` applies when a value is
  stored and when it is read;
- the processing utility class (MetaUtilsClass.py): the constructor's
  argument check and chunk fallback, the version check, the GPU mask, the
  image-name filter, the region doubling and the masking guard.

Vectors and matrices are over `real`, so arithmetic is exact. The engine's
chunk is a class: its transform and region are updated in place, and its
tie points are an array of objects whose `selected` flag is updated in
place. The preferences are a class whose INI table is a `map` field. The
mosaic is an `array2` filled from an `array3`.

Foreign numerics and the engine's state are inputs:
- the vector length `norm`;
- the eigen-decomposition (`PlaneFit.Eigen`) and the singular value
  decomposition (`Center.Svd`);
- whether files exist;
- a directory listing;
- the GPU count;
- the document `initDoc` opens or saves new, and the chunk it would add.

Each module follows a source file, or a part of one:

| module | models |
|---|---|
| Geometry | vector and 3x3 matrix arithmetic |
| Scene | markers, regions, transforms, tie points, the chunk |
| MarkerRegistry | `findMarkers` and the centroid |
| PlaneFit | `fitPlaneToMarkers` |
| Basis | `chunkCorrect` and `applyBasis` |
| RegionSizer | `setRegion` |
| PointFilter | `checkPoint`, `selectTiePointsOutsideBoundingBox`, `filterTiePoints` |
| Center | Center.py |
| RawUtils | RawUtils.py |
| Interpolation | the `%` interpolation of Python's `ConfigParser`, which ProjectPrefs.py relies on |
| ProjectPrefs | ProjectPrefs.py |
| Text, PosixPath | the Python string and `os.path` operations used by MetaUtilsClass.py |
| MetaUtils | MetaUtilsClass.py |

The model keeps the behaviour of the code as written, including where it
departs from what its names and comments suggest:
- `setRegion` lowers the region center "slightly" below the centroid by
  `0.1 * cageWidth` (Temp.py:27-33).
- `applyBasis` writes the translation `-c` unrotated (Temp.py:80-85). The
  centroid is therefore not, in general, mapped to the origin of the new
  frame. `Basis.ApplyBasis` states the matrix exactly as written.
- Neither script guards against degenerate marker layouts (collinear
  markers, view parallel to the normal), and the model raises no error there
  either. Normalisation of a zero vector keeps the vector as it is, because
  `norm` is a parameter that may return 0.
- Center.py reads the plane normal from the columns of `u`, the left
  singular vectors (Center.py:39-41), as its comment says. The model does
  the same.
- `USE_GPU` writes the mask `2^n - 2` under the comment "Enable all GPUs"
  (MetaUtilsClass.py:87-90). That mask leaves device 0 off, and with a
  single device it enables none while still disabling the CPU.
  `MetaUtils.GpuMaskEnables` states this.

## Model

| member | source | states |
|---|---|---|
| MarkerRegistry.Matching | Temp.py:6 | The candidates for a label are exactly the scene markers carrying it, and there are no more of them than scene markers. |
| MarkerRegistry.NoCarrier | Temp.py:6-7 | There are no candidates exactly when no scene position carries the label. |
| MarkerRegistry.UniqueAtHead | Temp.py:6-7 | When the first scene marker carries the label, the `len == 1` test passes exactly when no later marker carries it. |
| MarkerRegistry.OnlyCarrierPastHead | Temp.py:6-7 | When the first scene marker does not carry the label, its only carrier is the rest's only carrier, shifted by one. |
| MarkerRegistry.UniqueIffOneCarrier | Temp.py:6-7 | The `len(foundMarker) == 1` test passes exactly when one scene position carries the label and no other does. |
| MarkerRegistry.Resolve | Temp.py:3-9 | The lookup keeps at most one marker per requested label. |
| MarkerRegistry.FindMarkers | Temp.py:3-9 | The loop that appends a marker for each uniquely carried label produces the lookup `Resolve`. |
| MarkerRegistry.ResolveSound | Temp.py:5-7 | Every marker kept is a scene marker carrying a requested label, and is the only scene marker with that label. |
| MarkerRegistry.ResolveFinds | Temp.py:5-7 | Every requested label carried by exactly one scene marker has that marker in the result. |
| MarkerRegistry.ResolveKeepsAll | Temp.py:3-9 | The result is as long as the request exactly when every label is carried by exactly one marker; otherwise a later `[1]` index can fail. |
| MarkerRegistry.ResolveOne | Temp.py:5-7 | Looking up a single label keeps its marker exactly when the label is uniquely carried. |
| MarkerRegistry.ResolveAppend | Temp.py:5-7 | The lookup of two label lists in turn is the two lookups in turn. So the markers kept stay in request order even when labels are dropped. |
| MarkerRegistry.ResolveInOrder | Temp.py:5-7 | When every label resolves, the k-th marker found is the unique marker carrying the k-th label, so request order is kept. |
| MarkerRegistry.WidthResolvedGivesBox | Temp.py:13-19 | Whenever both width targets resolve, at least two floor targets resolve, so the floor centroid exists wherever the cage width does. |
| MarkerRegistry.Mean | Temp.py:15 | The centroid is the arithmetic mean: `n` copies of it add up to the sum of the `n` points. |
| MarkerRegistry.SumCentered | Temp.py:53 | Subtracting `c` from every point subtracts `n` copies of `c` from the sum. |
| MarkerRegistry.CenteredOnMeanSumsToZero | Temp.py:53 | Points centered on their mean add up to the zero vector. |
| MarkerRegistry.MeanOfFour | Center.py:12-16 | The mean of four points is each coordinate sum divided by four. |
| Geometry.Cross | Temp.py:111-112 | The cross product is orthogonal to both operands. |
| Geometry.Abs | Temp.py:158-162 | `abs` is non-negative and is the value or its negation. |
| Geometry.Transpose | Temp.py:22 | Entry `(i, j)` of the transpose is entry `(j, i)` of the matrix. |
| Geometry.DotScale | Temp.py:111-112 | Scaling an operand scales the dot product. |
| Geometry.Normalized | Temp.py:74 | `.normalized()` as a scaling by `1 / norm`; its meaning is stated by `NormalizedOrthogonal` and `NormalizedKeepsSign`. |
| Geometry.NormalizedOrthogonal | Temp.py:111-112 | Normalising a vector keeps it orthogonal to whatever it was orthogonal to. |
| Geometry.NormalizedKeepsSign | Temp.py:105-108 | With a positive length, normalising keeps the sign of every dot product. |
| Geometry.NormalizedPositiveScale | Temp.py:111-112 | With a non-negative length function, normalising scales by a positive factor, so the direction is kept. |
| Geometry.TransposeInvolution | Temp.py:156 | Transposing twice gives the matrix back. |
| Geometry.MulUnitY | Temp.py:23 | The transpose of `rot` applied to `(0, 1, 0)` is the second row of `rot`. |
| Geometry.MatMulEntry | Temp.py:122 | Entry `(i, j)` of the product is row `i` of the left factor dotted with column `j` of the right. |
| Geometry.MatMulApply | Temp.py:122 | Applying a product matrix is applying the right factor, then the left. |
| PlaneFit.ArgMin | Temp.py:60 | The index chosen holds a least value, and every earlier value is strictly larger (numpy `argmin` takes the first minimum). |
| PlaneFit.FitPlane | Temp.py:43-63 | The fitted plane; its meaning is stated by `FitPlaneNormal`. |
| PlaneFit.FitPlaneNormal | Temp.py:43-63 | The normal is the eigenvector of the first least eigenvalue, and the centroid is the mean of the points. |
| Basis.OrientNormal | Temp.py:108 | The flipped normal is the fitted normal or its negation, never points against `upward`, and is negated exactly when the dot product is negative. |
| Basis.BuildFrame | Temp.py:111-112 | `u` is `up`. `t` is orthogonal to the view and to `up`, and is a positive multiple of `view x up`. `v` is orthogonal to `up` and to `t`, and is a positive multiple of `up x t`. |
| Basis.BasisRotationRightHanded | Temp.py:79-85 | The rows `(t, u, -v)` are pairwise orthogonal, and `t x u` is a positive multiple of `-v`: the sign flip makes a right-handed frame. |
| Basis.ApplyBasis | Temp.py:79-85 | The transform becomes rotation rows `(t, u, -v)` with translation `-c`, and the region is untouched. |
| Basis.Align | Temp.py:97-112 | What `chunkCorrect` derives exists exactly when at least two floor targets and both up targets resolve. Then targets 11 and 18 are each carried by exactly one marker. `upward` is target 18 minus target 11, normalised, and the view is the first resolved floor target minus the second, normalised. The frame is built from the view and from the normal turned towards `upward`. |
| Basis.UpTargets | Temp.py:104 | The up lookup yields target 11 and then target 18, each only when exactly one marker carries it. |
| Basis.AlignUsesPlane | Temp.py:99-105 | The alignment's normal is the plane fit's least-eigenvalue eigenvector, and its centroid is the mean of the resolved floor targets. |
| Basis.ChunkCorrect | Temp.py:97-122 | When the lookups succeed, the transform becomes `Fudge * (t, u, -v)` with translation `-centroid`; otherwise nothing is written. The region is untouched. |
| Basis.CorrectedRotationApply | Temp.py:117-122 | The corrected rotation takes a direction into the `(t, u, -v)` frame, then turns it by the fudge matrix. |
| RegionSizer.SizedRegion | Temp.py:22-41 | The region `setRegion` computes; its meaning is stated by `SizedRegionShape` and `HeightIgnoresSmallScale`. |
| RegionSizer.CageWidth | Temp.py:19 | The cage width is `norm` of the first width target minus the second; it is used by `RegionFor` and `FilterBoxFor`. |
| RegionSizer.SizedRegionShape | Temp.py:22-41 | The region rotation is the transpose of the transform rotation. Above 0.75 the region is the cube `w*s` on the centroid; otherwise it is `(w*s, 0.75w, w*s)`, centered `0.1w` below the centroid along the transform's second row. |
| RegionSizer.HeightIgnoresSmallScale | Temp.py:40-41 | At or below the threshold, the region's height and center do not depend on the scale factor. |
| RegionSizer.PlaceRegion | Temp.py:22-41 | The field-by-field writes leave the region equal to `SizedRegion` and the transform unchanged. |
| RegionSizer.SetRegion | Temp.py:11-41 | It succeeds exactly when both width targets resolve. On success the region becomes the specified region for the floor centroid and the cage width; on failure the region is unchanged. The transform is never changed. |
| PointFilter.IsOutside | Temp.py:158-165 | The x, y, z test chain of `checkPoint`; its meaning is stated by `OutsideOnSomeAxis`, `CenterIsInside` and `FaceIsInside`. |
| PointFilter.OutsideOnSomeAxis | Temp.py:158-165 | A point is selected exactly when some local axis exceeds half the box size in magnitude, strictly, and it is kept exactly when every axis is within. |
| PointFilter.CenterIsInside | Temp.py:158-165 | The box center is never selected. |
| PointFilter.FaceIsInside | Temp.py:158-165 | A point exactly on the faces is not selected; moving it out by any positive amount selects it. |
| PointFilter.LocalInTransformFrame | Temp.py:149-156 | For a region oriented by `setRegion`, local coordinates are the transform rotation applied to the offset from the center. |
| PointFilter.CheckPoint | Temp.py:148-165 | The point's flag becomes the outside test. |
| PointFilter.SelectTiePointsOutsideBoundingBox | Temp.py:144-146 | Every tie point's flag becomes the outside test for the box, and only tie point flags are written. |
| PointFilter.FilterBox | Temp.py:135-141 | The filtering box keeps the region's rotation, is centered on the centroid, and has size `(2.138w, 1.145w, 2.138w)`. |
| PointFilter.FilterTiePoints | Temp.py:124-142 | It succeeds exactly when both width targets resolve. It then flags every tie point by the filtering box for the floor centroid and cage width; otherwise no flag changes. |
| Center.CentroidOfFour | Center.py:12-16 | Dividing each coordinate sum by four gives the mean of the four markers. |
| Center.PlaneMatrix | Center.py:19-24 | The rows are the four markers centered on the centroid. |
| Center.PlaneMatrixSumsToZero | Center.py:19-24 | The rows of the plane matrix add up to the zero vector. |
| Center.SentinelArgMin | Center.py:29-37 | The chosen index is the first least value when that value is below 100000, and 0 otherwise. |
| Center.SentinelMin | Center.py:30-37 | The final minimum is at most the sentinel and at most every value. Below the sentinel it is the value at the chosen index. |
| Center.MinIndexScan | Center.py:29-37 | The scan's index and value are the first least value below the sentinel, with ties keeping the earlier index; otherwise they are 0 and the sentinel. |
| Center.CenterUp | Center.py:41-42 | The normalised column `minIdx` of `u`; `CenterUpUsesLeastValue` states which column that is. |
| Center.CenterView | Center.py:46-47 | The normalised difference of markers 3 and 2; `CenterRotation` states it is the rotation's second row. |
| Center.CenterUpUsesLeastValue | Center.py:41-42 | When a singular value is below the sentinel, the normal is the normalised column of `u` for the first least singular value. |
| Center.CenterRotation | Center.py:45-62 | The rotation rows are `(u, v, n)`, with `v` the view. `u` is orthogonal to `v` and to the normal, and `n` is orthogonal to `u` and `v`. With a non-negative length function, `u` is a positive multiple of `v x up` and `n` a positive multiple of `u x v`. |
| Center.FindCenter | Center.py:4-62 | With at least eight markers, only the active chunk's rotation changes, to `CenterRotation`. With fewer, nothing is written. The region is never touched. |
| RawUtils.Precheck | RawUtils.py:23-28 | It refuses exactly when the input is missing, or when the output exists and `overwrite` is off; a missing input is reported first. |
| RawUtils.BayerChannel | RawUtils.py:41-50 | The channel is the number of odd coordinates: 0 for even/even, 1 for mixed, 2 for odd/odd. |
| RawUtils.BayerTile | RawUtils.py:41-50 | Every 2x2 tile is red, green / green, blue, and the pattern repeats with period two. |
| RawUtils.Mosaic | RawUtils.py:36-50 | The new array has the image's height and width, and every cell holds the channel the RGGB pattern picks. |
| RawUtils.SimulateWhiteBalance | RawUtils.py:31-32 | A four-tuple is kept, and anything else becomes `(1, 1, 1, 1)`. |
| RawUtils.SimulateBayerFilter | RawUtils.py:20-55 | It refuses exactly as `Precheck` does, before any work; otherwise the result is the mosaic of the image. |
| RawUtils.DevelopSettings | RawUtils.py:80-95 | Camera white balance is used exactly when auto is off and no four-tuple is given. A custom tuple survives only when auto is off and it is a four-tuple. Auto and camera white balance are never both on. |
| RawUtils.DevelopRaw | RawUtils.py:70-95 | It refuses exactly as `Precheck` does. Otherwise it passes to the developer exactly the settings `DevelopSettings` chooses: the half-size and auto flags as given, and never camera and automatic balance together. |
| RawUtils.QuickDevelopRaw | RawUtils.py:58-61 | The quick developer develops at half size. |
| RawUtils.HighQualityDevelopRaw | RawUtils.py:64-67 | The high-quality developer develops at full size. |
| RawUtils.QuickDiffersOnlyInSize | RawUtils.py:58-67 | The two developers refuse the same calls and differ only in the half-size flag. |
| Interpolation.Expand | ProjectPrefs.py:104 | How `ConfigParser` reads a stored value; its meaning is stated by `PlainValue`, `EscapeRoundTrip`, `OneReference` and `StrayPercent`. |
| Interpolation.Settable | ProjectPrefs.py:94 | The syntax check `ConfigParser` makes when a value is stored; its meaning is stated by `PlainValue`, `EscapeRoundTrip` and `StrayPercent`. |
| Interpolation.RefAt | ProjectPrefs.py:104 | A reference found at the start of a text has a non-empty name without `)`, and the text starts with `%(name)s`. |
| Interpolation.RefAtFinds | ProjectPrefs.py:104 | Text that starts with a well-formed reference is recognised as starting with it. |
| Interpolation.PlainValue | ProjectPrefs.py:94-104 | A value without `%` is accepted when stored, and reads back unchanged. |
| Interpolation.EscapeRoundTrip | ProjectPrefs.py:94-104 | Any text with its `%` signs doubled is accepted when stored, and reads back as the text itself. |
| Interpolation.OneReference | ProjectPrefs.py:104 | `%(name)s` reads as the option `name` when that holds no `%`, and fails as a missing option when `name` is absent. |
| Interpolation.StrayPercent | ProjectPrefs.py:94-104 | A lone `%` at the end of plain text is refused when stored, and is a syntax error when read. |
| ProjectPrefs.FillOne | ProjectPrefs.py:44-51 | One step of the `readConfig` loop; its meaning is stated by `FillOneLookup`. |
| ProjectPrefs.FillAll | ProjectPrefs.py:44-51 | The whole `readConfig` loop; its meaning is stated by `FillAllLookup`, `FillAllSections`, `FillComplete` and `FillIdempotent`. |
| ProjectPrefs.FillOneLookup | ProjectPrefs.py:44-51 | One fill step keeps every stored value, and adds at most the preference's default under its section. |
| ProjectPrefs.FillAllLookup | ProjectPrefs.py:44-51 | After the fill, a stored value is the old one if there was one; otherwise it is a filled preference's default, or nothing. |
| ProjectPrefs.FillAllSections | ProjectPrefs.py:44-47 | The fill adds exactly the sections of the filled preferences. |
| ProjectPrefs.FillIdempotent | ProjectPrefs.py:44-51 | Filling an already-filled table changes nothing. |
| ProjectPrefs.FillComplete | ProjectPrefs.py:44-51 | After the fill, every allowed preference's section exists. Each preference keeps its value, else holds its default (`NamePrefix` = `MetaPy`), else holds nothing. |
| ProjectPrefs.FillNoDefaults | ProjectPrefs.py:44-51 | Filling preferences without a default adds at most empty sections, and changes no section the table had. |
| ProjectPrefs.SameStoredError | ProjectPrefs.py:44-50 | When `readConfig` reads a preference, its stored value reads as it did in the loaded table. |
| ProjectPrefs.ReadStep | ProjectPrefs.py:44-51 | One step of the `readConfig` loop: once the section is ensured, the preference reads as in the loaded table, and the step is one fill step. |
| ProjectPrefs.StoredError | ProjectPrefs.py:50 | The error that reading a stored allowed preference raises, if any; its meaning is stated through `GetEntry` and `ReadStep`. |
| ProjectPrefs.FailureFrom | ProjectPrefs.py:44-50 | The preference found is at or after the start of the search, and its stored value does not read. |
| ProjectPrefs.FailureFromStart | ProjectPrefs.py:44-50 | The search from the first preference finds nothing exactly when every stored allowed preference reads. Otherwise it finds the first one that does not. |
| ProjectPrefs.FillAllValid | ProjectPrefs.py:44-47 | After the full fill, every allowed preference's section exists. |
| ProjectPrefs.SetEntry | ProjectPrefs.py:87-94 | An unknown name is refused, and a missing section fails. A value with a `%` that is neither an escape nor a reference is refused. Otherwise the value is stored and the table keeps its sections. |
| ProjectPrefs.GetEntry | ProjectPrefs.py:97-104 | An unknown name is refused, and a missing section or key fails exactly when it is missing. A stored value is returned exactly as its expansion against its section (`Expand`) when that succeeds, and as that expansion's error otherwise; `BadValue` is never returned. A value without `%` is returned as stored. |
| ProjectPrefs.SetThenGet | ProjectPrefs.py:93-104 | A value without `%` reads back, right after it is set, as it was set. |
| ProjectPrefs.SetEscapedThenGet | ProjectPrefs.py:93-104 | Any text stored with its `%` signs doubled is accepted, and reads back as the text itself. |
| ProjectPrefs.SetRefusesStrayPercent | ProjectPrefs.py:93-94 | A value ending in a lone `%` is refused when set. |
| ProjectPrefs.SetChangesOnlyItsEntry | ProjectPrefs.py:93-94 | Setting a preference changes no other entry of the table. |
| ProjectPrefs.NewPrefs | ProjectPrefs.py:19-25 | It succeeds exactly when every stored allowed preference of the loaded table interpolates, and otherwise fails with an interpolation error. On success, an empty file name becomes `project.ini` and the table is the loaded one, filled. |
| ProjectPrefs.Prefs.ReadConfig | ProjectPrefs.py:30-51 | A non-empty file name replaces the stored one. When no stored allowed preference fails to interpolate, the loop leaves the loaded table filled with sections and defaults, and every allowed section exists. Otherwise it reports the first such preference's error (`FailureFrom`), with the table filled up to that preference. |
| ProjectPrefs.Prefs.SetPref | ProjectPrefs.py:87-94 | A refused update changes nothing and reports `SetEntry`'s error; otherwise the table is updated as `SetEntry` says. On a filled table, an allowed name with an acceptable value is always stored, and the table stays filled. |
| ProjectPrefs.Prefs.GetPref | ProjectPrefs.py:97-104 | The result is the lookup `GetEntry` makes on the table, and on a filled table the section lookup never fails. |
| Text.LowerIdempotent | MetaUtilsClass.py:139 | Lower-casing twice is lower-casing once. |
| Text.Split | MetaUtilsClass.py:69 | Splitting gives at least one field, and no field holds the separator. |
| Text.JoinSplit | MetaUtilsClass.py:69 | Joining the fields of a split gives the string back. |
| Text.SplitJoin | MetaUtilsClass.py:69 | Splitting a join of separator-free fields gives the fields back. |
| PosixPath.PathSplit | MetaUtilsClass.py:44 | The tail is the longest slash-free end of the path. The head is the rest, with trailing slashes stripped unless it is all slashes. |
| PosixPath.TailIsLongestSlashFree | MetaUtilsClass.py:44 | Any slash-free end of the path that is the whole path, or is preceded by a slash, is the tail `split` returns. |
| PosixPath.ExtensionAtLastDot | MetaUtilsClass.py:45 | The test `splitext` makes on the last slash and the last dot holds exactly when the final component has an extension. |
| PosixPath.SplitExt | MetaUtilsClass.py:45 | Root and extension concatenate to the input. The extension is non-empty exactly when the last dot follows a non-dot character of the final component, and it then runs from that dot. |
| PosixPath.PathJoin | MetaUtilsClass.py:140 | The three cases of `join`: an absolute name replaces the directory; a directory that is empty or ends in a slash is followed directly by the name; otherwise one slash goes between them. |
| PosixPath.SplitJoinTail | MetaUtilsClass.py:140 | Splitting a joined path gives back the slash-free file name that was joined on. |
| MetaUtils.VersionPrefix | MetaUtilsClass.py:69 | The first two dot-separated fields rejoined; its meaning is stated by `TwoFieldShape` and `VersionPrefixMatches`. |
| MetaUtils.TwoFieldShape | MetaUtilsClass.py:69 | The prefix of a dotted version is its first two fields with a dot between them, followed in the version by nothing or by a dot. |
| MetaUtils.VersionPrefixMatches | MetaUtilsClass.py:69-70 | The prefix is `2.2` exactly when the version is `2.2` or starts with `2.2.`, so `2.2.1` passes and `2.20.0` fails. |
| MetaUtils.CheckVer | MetaUtilsClass.py:67-76 | The version check passes exactly for `2.2` and versions starting with `2.2.`. |
| MetaUtils.GpuMask | MetaUtilsClass.py:90 | The mask `2^n - 2`; which devices it enables is stated by `GpuMaskEnables`. |
| MetaUtils.GpuMaskEnables | MetaUtilsClass.py:90 | For `n >= 1` devices the mask `2^n - 2` enables exactly devices `1 .. n-1`: device 0 stays off, and one device gives the empty mask. |
| MetaUtils.UseGpu | MetaUtilsClass.py:80-91 | With devices present it writes the mask and disables the CPU; with none it changes nothing. |
| MetaUtils.ImageNameIgnoresCase | MetaUtilsClass.py:139 | The image-name test ignores letter case. |
| MetaUtils.IsImageName | MetaUtilsClass.py:139 | The lower-cased name ends in one of the image extensions; `ImageNameIgnoresCase` states that case does not matter. |
| MetaUtils.ImagesToLoad | MetaUtilsClass.py:138-140 | There are no more image paths than listed names; which paths and in what order is stated by `ImagesToLoadMembers` and `ImagesToLoadAppend`. |
| MetaUtils.ImagesToLoadMembers | MetaUtilsClass.py:138-140 | A path is collected exactly when it joins the image directory to a listed image name. |
| MetaUtils.ImagesToLoadAppend | MetaUtilsClass.py:138-140 | Collecting from two listings in turn gives the two collections in turn, so listing order is kept. |
| MetaUtils.WorkingChunk | MetaUtilsClass.py:49-54 | The working chunk is the active chunk, else the first chunk; there is none exactly when both are missing. |
| MetaUtils.InitDoc | MetaUtilsClass.py:105-115 | A document that has chunks is kept. A document without any gets the added chunk, made active. |
| MetaUtils.InitDocHasChunk | MetaUtilsClass.py:113-115 | The document `initDoc` leaves always has a working chunk. |
| MetaUtils.NamesFromPath | MetaUtilsClass.py:44-45 | The image directory is the head of the document path, and the project name is the file name with the extension `SplitExt` finds removed. |
| MetaUtils.MetaUtils.LoadImages | MetaUtilsClass.py:129-140 | The loop collects exactly the image paths `ImagesToLoad` specifies, in listing order. |
| MetaUtils.MetaUtils.ChunkCorrect | MetaUtilsClass.py:118-126 | The region size doubles; its center and rotation, and the transform, stay as they were. |
| MetaUtils.MetaUtils.AutoMask | MetaUtilsClass.py:153-158 | Masking proceeds exactly when the chunk has a camera. |
| MetaUtils.NewMetaUtils | MetaUtilsClass.py:28-54 | It refuses exactly when no document, path or prefix is given, and when a given document has no chunk at all. Otherwise the names come from the document path, or from `path` and `prefix` with the document `initDoc` leaves, and the chunk is the working chunk. |

## Left out

- Vector length and normalisation need square roots and floating point. `norm` is a parameter, and normalising divides by it, or leaves a zero-length vector as it is. No contract claims unit length.
- The covariance matrix and `numpy.linalg.eig`/`svd` are foreign numerics. Their results are inputs (`PlaneFit.Eigen`, `Center.Svd`). The model keeps only how the scripts pick from them.
- Floating-point rounding: all arithmetic is exact over `real`.
- Engine calls that only decorate or drive the engine are not modelled: `addMarker` (Temp.py:35, Temp.py:113), `visualizeBasis`, `addPhotos` and `importMasks`. Of `initDoc`, only the chunk it adds is modelled (`MetaUtils.InitDoc`); opening or saving the `.psx` file is an input.
- The `print` calls, the logger and the progress bar are not modelled.
- MetaUtils.NewMetaUtils assumes the module logger is ready. `__init__` calls `logger.debug` (MetaUtilsClass.py:40) on a logger that stays `None` until a static method such as `CHECK_VER` has run `ensureLoggerReady`; the failure when that has not happened is not modelled.
- The debug constants at Temp.py:167-170 and the undefined `basis` printed at Center.py:64 are not part of this model.
- Center.FindCenter writes to the application's active chunk. The model passes that chunk as `active`.
- Tie-point coordinates are homogeneous 4-vectors cut to 3 components. The model stores the 3 components.
- File input and output (`imageio`, `rawpy`, `ConfigParser.read`, `saveConfig`) are not modelled. File existence, the loaded INI table, the directory listing and the image arrays are inputs.
- RawUtils.SimulateBayerFilter: the white balance it settles on is computed but, as in the source, never used; writing the TIFF is not modelled.
- RawUtils.Mosaic: pixel values are 16-bit unsigned integers; other input depths are not modelled.
- RawUtils.Mosaic and RawUtils.SimulateBayerFilter require an image with at least three channels. The source raises an IndexError when it reads a missing channel (RawUtils.py:45, RawUtils.py:48, RawUtils.py:50), for example on a grayscale image; the model does not represent that failure.
- `ProjectPrefs.parseCommandLine` (argparse) is not modelled, because its input is the process's command line.
- The help strings of the allowed preferences are not modelled.
- The `DEFAULT` section of `ConfigParser` and its fallthrough are not modelled. A reference `%(name)s` is resolved in its own section only.
- The messages of `ConfigParser`'s errors are not modelled, only their kind.
- ProjectPrefs.SetThenGet: promises a value back as it was set only for values without `%`. `ConfigParser` interpolates on reading, so "100%%" reads back as "100%". `SetEscapedThenGet` states the round trip for any text.
- PosixPath.PathSplit, PosixPath.SplitExt, PosixPath.PathJoin, MetaUtils.NamesFromPath and MetaUtils.MetaUtils.LoadImages follow POSIX `os.path`. On Windows, which the drivers target (for example `C:/SimulatedScans/`, MetaQuick.py:11), `os.path` also splits on `\`, keeps a drive's root in the head ("C:/x" splits into "C:/" and "x"), and joins with `\`. Those rules are not modelled.
- Values in the preference table are strings only.
- ProjectPrefsTest.py is not part of this model.
- Text.Lower: only ASCII letters are lower-cased.
- MetaUtils.MetaUtils.LoadImages stops at the list of paths. Adding the photos to the chunk and timing the progress bar are not modelled.
- MetaUtils.MetaUtils.AutoMask models only the guard before the mask import.
- Raising an exception is modelled as a `false` flag or an error value that leaves the state as it was. In each such case the source fails before its first write. The one exception is ProjectPrefs.Prefs.ReadConfig, whose contract states the partly filled table it leaves.
- Basis.ChunkCorrect, RegionSizer.SetRegion and PointFilter.FilterTiePoints report a dropped target as a `false` result, without distinguishing how the source fails:
  - RegionSizer.SetRegion and PointFilter.FilterTiePoints fail at `widthMarkers[1]` (Temp.py:19, Temp.py:127).
  - Basis.ChunkCorrect with fewer than two up targets fails at `upMarkers[1]` (Temp.py:105).
  - Basis.ChunkCorrect with no floor target or one fails earlier, in the plane fit. There `np.cov` (Temp.py:54) yields NaN and `np.linalg.eig` (Temp.py:57) raises, before `targets[1]` is reached.
