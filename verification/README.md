# XBuild asset-bundle naming rules, in Dafny

XBuild's `ABConfig` decides, for every file of a Unity project, which asset
bundle it belongs to. It does this from the file's path alone, under a set of
settings: bundle-name prefixes, resource root directories, file-suffix lists,
size limits and a bucket count.

- **Classification.** A path falls into a category (Model, Scene, UI, Other) by
  its root directory. It gets a type (Shader, Material, Texture, Prefab, Asset,
  Other) by its suffix, in a fixed order of precedence.
- **Default bundle name.** This is the shader prefix for shaders. Otherwise it
  is the prefix of the first directory rule the path matches, followed by the
  lower-cased file name without extension. For UI files outside the big-image
  root it is instead the lower-cased first '/'-separated segment below the UI
  root; for a file directly under the UI root that segment is the whole file
  name, extension included (`Assets/ResUI/Common.prefab` gives
  `ui_common.prefab`).
- **Dependencies.** A Model or Scene texture, prefab or asset larger than its
  category's limit gets a bundle of its own. Large materials and shaders get
  none. Smaller Model textures and Scene textures or assets are spread over
  `commonDepIndexMax` shared buckets by the sum of the bytes of the MD5 digest
  of their path. Every other dependency gets no bundle name (null).

Files:

- `wrappers.dfy`: `Option`, the stand-in for a C# reference that may be null.
- `strings.dfy`: the .NET string and path operations the rules use.
  `StartsWith`, `EndsWith`, `IndexOf`, `ToLower`, `GetFileName`,
  `GetFileNameWithoutExtension`, `Split('/')[0]` and `int.ToString`, each with
  its characterisation.
- `ab_config.dfy`: the settings as an immutable `Config` value, with the
  default values and every rule of `ABConfig`.
- `ab_config_properties.dfy`: what the rules guarantee. This covers:
  - precedence of overlapping roots;
  - validity of default names;
  - dependency names being marked;
  - bucket names encoding their bucket;
  - concrete behaviour of the default settings;
  - the two findings below.

The singleton `Instance` is replaced by an explicit `Config` parameter. The
MD5 digest is the parameter `digest: string -> seq<byte>`, which stands for
"UTF-8 encode, then MD5".

## Model

| member | source | states |
|---|---|---|
| Strings.IndexOf | XBuild/Editor/AB/ABConfig.cs:98 | `IndexOf(s, t) >= 0` exactly when `t` occurs in `s`, and then it is the first occurrence; it is -1 when `t` does not occur |
| Strings.Lower | XBuild/Editor/AB/ABConfig.cs:230-235 | ToLower keeps the length, maps each character by ASCII lower-casing, and leaves no upper-case letter |
| Strings.FileName | XBuild/Editor/AB/ABConfig.cs:234 | the file name is the '/'-free end of the path, preceded by '/' unless it is the whole path |
| Strings.FileNameWithoutExtension | XBuild/Editor/AB/ABConfig.cs:234 | the result is a prefix of the file name and holds no '/'; it is cut exactly at the last '.' when the name has one, and is the whole name otherwise |
| Strings.FileNameWithoutExtensionOf | XBuild/Editor/AB/ABConfig.cs:234 | for `dir/stem.ext` (ext without '.', neither part with '/') the result is `stem` |
| Strings.FirstSegment | XBuild/Editor/AB/ABConfig.cs:242-243 | `Split('/')[0]` is the longest '/'-free prefix: it is followed by '/' or is the whole string |
| Strings.FirstSegmentBeforeSlash | XBuild/Editor/AB/ABConfig.cs:242-243 | the first segment of `head/tail` is `head` when `head` has no '/' |
| Strings.Decimal | XBuild/Editor/AB/ABConfig.cs:330 | `int.ToString` of a non-negative number is a non-empty digit string without a leading zero; 0 gives "0" |
| Strings.DecimalRoundTrip | XBuild/Editor/AB/ABConfig.cs:330 | reading the digits of `Decimal(n)` back gives `n`, so together with `Decimal`'s contract the text of every number is fixed |
| ABConfig.IntendedTextureSuffixes | XBuild/Editor/AB/ABConfig.cs:61-63 | the corrected texture list holds exactly ".TGA" and the default suffixes other than ".TAG" |
| ABConfig.IntendedConfig | XBuild/Editor/AB/ABConfig.cs:61-63 | the corrected settings equal the defaults in every field but the texture list, which holds exactly ".TGA" and the default texture suffixes other than ".TAG" |
| ABConfig.IsValidABName | XBuild/Editor/AB/ABConfig.cs:86-93 | a null or empty name is valid; otherwise valid iff it starts with the model, scene, UI or shader prefix |
| ABConfig.IsDepABName | XBuild/Editor/AB/ABConfig.cs:95-99 | a null or empty name is not a dependency name; otherwise it is one iff it contains the `dep` marker |
| ABConfig.GetABNameWithDepSuffix | XBuild/Editor/AB/ABConfig.cs:347-350 | the result ends with `dep` and is the name followed by `dep`; a null name gives just `dep` |
| ABConfig.IsModel | XBuild/Editor/AB/ABConfig.cs:119-122 | true iff the path starts with the model root |
| ABConfig.IsScene | XBuild/Editor/AB/ABConfig.cs:124-127 | true iff the path starts with the scene root |
| ABConfig.IsUI | XBuild/Editor/AB/ABConfig.cs:129-132 | true iff the path starts with the UI root |
| ABConfig.IsUIBigImage | XBuild/Editor/AB/ABConfig.cs:134-137 | true iff the path starts with the big-image root |
| ABConfig.IsUseDirNameForABName | XBuild/Editor/AB/ABConfig.cs:188-191 | true iff the path is under the UI root but not under the big-image root |
| ABConfig.GetDepCategory | XBuild/Editor/AB/ABConfig.cs:101-107 | the category's root is a prefix of the path, and no category tried earlier (Model, Scene, UI) matches |
| ABConfig.NoSuffixByLastChar | XBuild/Editor/AB/ABConfig.cs:139-186 | a path whose last character ends none of the suffixes has none of them as a suffix |
| ABConfig.EndsWithAny | XBuild/Editor/AB/ABConfig.cs:141-145 | the foreach with early return finds a match exactly when some listed suffix ends the path |
| ABConfig.IsMaterial | XBuild/Editor/AB/ABConfig.cs:139-146 | true iff some material suffix ends the path |
| ABConfig.IsPrefab | XBuild/Editor/AB/ABConfig.cs:147-154 | true iff some prefab suffix ends the path |
| ABConfig.IsScript | XBuild/Editor/AB/ABConfig.cs:155-162 | true iff some script suffix ends the path |
| ABConfig.IsShader | XBuild/Editor/AB/ABConfig.cs:163-170 | true iff some shader suffix ends the path |
| ABConfig.IsAsset | XBuild/Editor/AB/ABConfig.cs:171-178 | true iff some asset suffix ends the path |
| ABConfig.IsTexture | XBuild/Editor/AB/ABConfig.cs:179-186 | true iff some texture suffix ends the path |
| ABConfig.GetAssetType | XBuild/Editor/AB/ABConfig.cs:109-117 | a type other than Other has one of its suffixes at the end of the path, and no type tried earlier (Shader, Material, Texture, Prefab, Asset) matches |
| ABConfig.IsValidDep | XBuild/Editor/AB/ABConfig.cs:193-198 | true iff the category is not UI and the type is not Other |
| ABConfig.FirstRootMatch | XBuild/Editor/AB/ABConfig.cs:208-217 | when no rule's root is a prefix of the path, the prefix is "" |
| ABConfig.DefaultConfig | XBuild/Editor/AB/ABConfig.cs:21-68 | the default settings have a non-empty dependency marker, a positive number of common buckets, 1 MiB model and scene limits, and a material limit of a fifth of that |
| ABConfig.PrefixRules | XBuild/Editor/AB/ABConfig.cs:208-216 | the nine directory rules of the prefix chain, one per root (the order is stated by `MoreSpecificRootsFirst`) |
| ABConfigProperties.MoreSpecificRootsFirst | XBuild/Editor/AB/ABConfig.cs:208-216 | with nested roots, no rule's root strictly extends the root of an earlier rule: the chain tests the most specific roots first, so no rule is shadowed by a more general one |
| ABConfig.GetABNamePrefix | XBuild/Editor/AB/ABConfig.cs:205-218 | shaders get the shader prefix; every other path gets the prefix of the first of the nine directory rules whose root it starts with |
| ABConfig.GetResUISubDirName | XBuild/Editor/AB/ABConfig.cs:239-244 | null outside the UI root; otherwise the first '/'-separated segment of what follows the UI root and one more character, which is skipped whatever it is (not only a '/') |
| ABConfig.GetDefaultABName | XBuild/Editor/AB/ABConfig.cs:225-237 | the shader prefix for shaders; otherwise the prefix followed by the lower-cased UI sub-directory or the lower-cased file name without extension |
| ABConfig.ByteSum | XBuild/Editor/AB/ABConfig.cs:252 | the byte sum lies between 0 and 255 times the digest length |
| ABConfig.CommonDepIndex | XBuild/Editor/AB/ABConfig.cs:253 | the bucket is non-negative and below the absolute bucket count |
| ABConfig.GetCommonDepIndex | XBuild/Editor/AB/ABConfig.cs:246-254 | the summing loop computes `CommonDepIndex`, a bucket in range |
| ABConfig.IsNeedSetSingleABName | XBuild/Editor/AB/ABConfig.cs:295-299 | Model and Scene assets strictly above their limit are single; other categories never are |
| ABConfig.GetDepSingleABName | XBuild/Editor/AB/ABConfig.cs:301-321 | non-null exactly for Model or Scene textures, prefabs and assets; the name is the category's dep prefix and the lower-cased asset name |
| ABConfig.GetDepCommonABName | XBuild/Editor/AB/ABConfig.cs:323-345 | non-null exactly for Model textures and Scene textures or assets; the name is the pair's common prefix and the decimal bucket |
| ABConfig.GetDepNeedSetABName | XBuild/Editor/AB/ABConfig.cs:256-260 | a dependency strictly over its limit gets the dedicated name (the category's dep prefix and the lower-cased name), otherwise the shared bucket name (the pair's common prefix and the decimal bucket); null exactly when the chosen side has no rule for the pair, in particular for materials, shaders, Other types, UI and Other categories, and small non-texture Model assets |
| ABConfig.SceneDepMaterialABName | XBuild/Editor/AB/ABConfig.cs:262-265 | the scene material prefix followed by the lower-cased name |
| ABConfig.SceneDepPrefabABName | XBuild/Editor/AB/ABConfig.cs:266-269 | the scene prefab prefix followed by the lower-cased name |
| ABConfig.SceneDepMaterialABNameBySize | XBuild/Editor/AB/ABConfig.cs:271-281 | strictly above the material limit the material name, otherwise the shared scene texture bundle |
| ABConfig.SceneDepPrefabABNameBySize | XBuild/Editor/AB/ABConfig.cs:283-293 | as written: strictly above the material limit the MATERIAL name, otherwise the shared scene prefab bundle |
| ABConfig.IntendedSceneDepPrefabABNameBySize | XBuild/Editor/AB/ABConfig.cs:283-293 | corrected: strictly above the limit the prefab name, otherwise the shared scene prefab bundle |
| ABConfigProperties.FirstRootMatchAt | XBuild/Editor/AB/ABConfig.cs:208-217 | the if/else chain returns the prefix of the first rule whose root matches |
| ABConfigProperties.OutsideModelRoot | XBuild/Editor/AB/ABConfig.cs:208-213 | with nested roots, a path outside the model root matches none of the model sub-roots |
| ABConfigProperties.ModelSubRootWins | XBuild/Editor/AB/ABConfig.cs:208-213 | a path under a model sub-root gets that sub-root's prefix, never the generic model prefix |
| ABConfigProperties.BigImageWins | XBuild/Editor/AB/ABConfig.cs:215-216 | a path under the big-image root gets the big-image prefix, although it is also under the UI root |
| ABConfigProperties.PrefixFollowsCategory | XBuild/Editor/AB/ABConfig.cs:101-107 | the prefix agrees with `GetDepCategory`: Model paths get a model prefix, Scene the scene prefix, UI a UI prefix, Other "" |
| ABConfigProperties.UIDirDefaultName | XBuild/Editor/AB/ABConfig.cs:228-231 | under the UI root but not big images, the name is the UI prefix and the lower-cased first '/'-separated segment below the root (the whole file name for a file directly under the root) |
| ABConfigProperties.BigImageDefaultName | XBuild/Editor/AB/ABConfig.cs:232-236 | under the big-image root, the name is the big-image prefix and the lower-cased file name without extension |
| ABConfigProperties.SubRootFileName | XBuild/Editor/AB/ABConfig.cs:208-213 | `root/stem.ext` under a model sub-root is named by that sub-root's prefix and the lower-cased `stem` |
| ABConfigProperties.BigImageFileName | XBuild/Editor/AB/ABConfig.cs:215 | `stem.ext` directly under the big-image root is named by the big-image prefix and the lower-cased `stem` |
| ABConfigProperties.UIDirFileName | XBuild/Editor/AB/ABConfig.cs:239-244 | every file in UI directory `dir` (outside big images) is named by the UI prefix and the lower-cased `dir` |
| ABConfigProperties.DefaultNamesAreValid | XBuild/Editor/AB/ABConfig.cs:86-93 | the default name of a shader or of any file under a resource root passes `IsValidABName` |
| ABConfigProperties.DepSuffixRoundTrip | XBuild/Editor/AB/ABConfig.cs:347-350 | a name with the dep suffix appended is recognised by `IsDepABName` |
| ABConfigProperties.DepNamesAreMarked | XBuild/Editor/AB/ABConfig.cs:256-260 | a non-null dependency name is both a dependency name and a valid name |
| ABConfigProperties.CommonNameEncodesBucket | XBuild/Editor/AB/ABConfig.cs:323-345 | a shared bucket name is its prefix followed by digits that read back as the bucket, which is below the bucket count |
| ABConfigProperties.DefaultConfigIsNested | XBuild/Editor/AB/ABConfig.cs:46-54 | the default roots satisfy the nesting the precedence lemmas assume |
| ABConfigProperties.DefaultConfigPrefixes | XBuild/Editor/AB/ABConfig.cs:21-44 | every default directory prefix starts with its top-level prefix; the five dependency prefixes the dependency rules use (`model_dep_`, `scene_dep_`, `model_dep_common_tex_`, `scene_dep_common_tex_`, `scene_dep_common_asset_`) hold "_dep_" and start with their category's prefix |
| ABConfigProperties.ShaderExample | XBuild/Editor/AB/ABConfig.cs:163-170 | with the defaults, any ".shader" file is a shader bundled as "shader" |
| ABConfigProperties.CharacterKind | XBuild/Editor/AB/ABConfig.cs:109-117 | with the defaults, `Assets/ResModel/Character/<stem>.fbx` is a Model-category prefab |
| ABConfigProperties.CharacterExample | XBuild/Editor/AB/ABConfig.cs:225-237 | with the defaults, `Assets/ResModel/Character/<stem>.fbx` is named "model_role_" and the lower-cased stem |
| ABConfigProperties.BigImageExample | XBuild/Editor/AB/ABConfig.cs:225-237 | with the defaults, `Assets/ResUI/big_image/<stem>.png` is named "ui_big_image_" and the lower-cased stem |
| ABConfigProperties.UIDirExample | XBuild/Editor/AB/ABConfig.cs:225-244 | with the defaults, every prefab in `Assets/ResUI/Login/` is named "ui_login" |
| ABConfigProperties.ThresholdExample | XBuild/Editor/AB/ABConfig.cs:295-299 | with the defaults, a Model dependency of exactly 1 MiB is not single, and one byte more is |
| ABConfigProperties.UpperTgaIsNotTexture | XBuild/Editor/AB/ABConfig.cs:61 | as written, with the defaults every ".TGA" file is of type Other |
| ABConfigProperties.IntendedUpperTgaIsTexture | XBuild/Editor/AB/ABConfig.cs:61 | with the corrected list, every ".TGA" file is a texture |
| ABConfigProperties.LargeScenePrefabGetsMaterialName | XBuild/Editor/AB/ABConfig.cs:283-288 | as written, a scene prefab above the material limit gets the material name, e.g. "Rock" of 300000 bytes becomes "scene_dep_mat_rock" |
| ABConfigProperties.IntendedLargeScenePrefabGetsPrefabName | XBuild/Editor/AB/ABConfig.cs:283-288 | corrected, the same prefab gets the prefab name, "scene_dep_prefab_rock" |

## Left out

- ABConfig.PrefixRules: its own contract states only that there are nine rules; which root goes with which prefix is the list itself, and the order that matters is proved separately by `MoreSpecificRootsFirst`, because richer facts in this contract make every caller of the list noticeably more expensive to verify.
- The `Instance` singleton (ABConfig.cs:70-84) is left out. Loading or creating the settings asset is editor I/O; every rule takes a `Config` value instead.
- The MD5 digest and UTF-8 encoding (ABConfig.cs:249-251) are foreign code. They are the parameter `digest`, so the bucket is proved correct for any digest.
- `Path.GetFileNameWithoutExtension` recognises only '/' as a separator here. Unity asset paths use '/'. On Windows .NET also splits at '\\', and .NET Framework and Mono also split at the volume separator ':'. The `ArgumentException` that .NET Framework throws for invalid path characters is not modelled either.
- `ToLower` is modelled for ASCII letters only. Culture-sensitive `StartsWith`, `EndsWith` and `IndexOf` are modelled as ordinal comparison.
- The size limits are `float` in the source and `real` here. The `long`-to-`float` conversion in the comparison, and its rounding for very large sizes, is not modelled.
- A null path is not modelled. Every rule that reads a path would throw on it.
- ABConfig.CommonDepIndex: requires a non-zero bucket count. With 0 the source throws DivideByZeroException; this exception path is not modelled.
- ABConfig.GetCommonDepIndex: requires a non-zero bucket count, for the same reason.
- ABConfig.GetDepCommonABName: requires a non-zero bucket count for the grouped pairs, which reach `CommonDepIndex`, for the same reason.
- ABConfig.GetDepNeedSetABName: requires a non-zero bucket count when the shared-bucket side is taken for a grouped pair, for the same reason.
- ABConfig.GetResUISubDirName: requires that a path under the UI root be longer than the root. For the root itself, `Substring` throws ArgumentOutOfRangeException; this exception path is not modelled.
- ABConfig.GetDefaultABName: carries the same requirement, for the same reason.
- Three settings no rule reads (`abPrefixModelScene`, `abPrefixModelDepMaterial`, `abPrefixSceneDepMeterialCommonTex`) are kept as fields of `Config` with their defaults. The asset name and path constants `configName` and `configPath` belong to the left-out singleton.
- The precedence lemmas assume `Nested` (the sub-roots lie under their parent root and siblings are disjoint). The source does not check this for edited settings. `DefaultConfigIsNested` proves it holds for the defaults.
- XBuild/Editor/AB/ABBrowser/ABBrowserWindow.cs and XRemoteDebug/Editor/Log/LogPanel.cs are editor UI and are not part of this model.

## Findings

| source | as written | input that shows it | evidently intended | confidence | as-written member | corrected member |
|---|---|---|---|---|---|---|
| XBuild/Editor/AB/ABConfig.cs:61 | the default texture suffixes list ".TAG" next to ".tga" | `Assets/ResScene/ground.TGA` is of type Other, so `IsValidDep` rejects it | ".TGA", the upper-case form of ".tga", as every other suffix appears in both cases | high, not executed | ABConfigProperties.UpperTgaIsNotTexture | ABConfig.IntendedConfig, ABConfigProperties.IntendedUpperTgaIsTexture |
| XBuild/Editor/AB/ABConfig.cs:283-293 | the prefab overload of GetSceneDepPrefabABName returns GetSceneDepMaterialABName above the limit | "Rock", 300000 bytes, gives "scene_dep_mat_rock" | GetSceneDepPrefabABName(fileName), "scene_dep_prefab_rock" | medium, not executed | ABConfig.SceneDepPrefabABNameBySize, ABConfigProperties.LargeScenePrefabGetsMaterialName | ABConfig.IntendedSceneDepPrefabABNameBySize, ABConfigProperties.IntendedLargeScenePrefabGetsPrefabName |
