/**
 * The asset-bundle naming and classification rules of XBuild's ABConfig.
 *
 * Every rule reads an immutable `Config` (the serialized settings object)
 * passed in explicitly; the MD5 digest used to spread shared dependencies
 * over buckets is the parameter `digest`.
 */
module ABConfig {
  import opened Wrappers
  import opened Strings

  newtype byte = x: int | 0 <= x < 256

  datatype AssetsCategory = Model | Scene | UI | Other

  datatype AssetsType = Shader | Material | Texture | Prefab | Asset | Other

  /** What the dependency rules read of an asset. */
  datatype AssetsInfo = AssetsInfo(
    name: string,
    path: string,
    size: int,
    category: AssetsCategory,
    assetType: AssetsType)

  /** The settings: bundle-name prefixes, resource roots, file suffixes, size limits, bucket count. */
  datatype Config = Config(
    dep: string,
    abPrefixShader: string,
    abPrefixModel: string,
    abPrefixModelFx: string,
    abPrefixModelCharacter: string,
    abPrefixModelWeapon: string,
    abPrefixModelMonster: string,
    abPrefixModelScene: string,
    abPrefixModelOther: string,
    abPrefixModelDep: string,
    abPrefixModelDepCommonTex: string,
    abPrefixModelDepMaterial: string,
    abPrefixScene: string,
    abPrefixSceneDep: string,
    abPrefixSceneDepMeterial: string,
    abPrefixSceneDepPrefab: string,
    abPrefixSceneDepMeterialCommonTex: string,
    abPrefixSceneDepCommonTex: string,
    abPrefixSceneDepCommonAsset: string,
    abPrefixSceneDepCommonPrefab: string,
    abPrefixUi: string,
    abPrefixUiBigImage: string,
    resDirModel: string,
    resDirModelFx: string,
    resDirModelCharater: string,
    resDirModelWeapon: string,
    resDirModelMonster: string,
    resDirModelOther: string,
    resDirScene: string,
    resDirUi: string,
    resDirUiBigImage: string,
    fileSuffixMaterial: seq<string>,
    fileSuffixPrefab: seq<string>,
    fileSuffixScript: seq<string>,
    fileSuffixShader: seq<string>,
    fileSuffixAsset: seq<string>,
    fileSuffixTexture: seq<string>,
    abDepSingleSizeLimitMaterial: real,
    abDepSingleSizeLimitModel: real,
    abDepSingleSizeLimitScene: real,
    commonDepIndexMax: int)

  // The default suffix lists. The texture list holds ".TAG" where ".TGA" is evidently meant.
  const DefaultMaterialSuffixes: seq<string> := [".mat", ".MAT"]
  const DefaultPrefabSuffixes: seq<string> := [".prefab", ".PREFAB", ".fbx", ".FBX", ".obj", ".OBJ"]
  const DefaultScriptSuffixes: seq<string> := [".cs"]
  const DefaultShaderSuffixes: seq<string> := [".shader", ".SHADER"]
  const DefaultAssetSuffixes: seq<string> := [".asset", ".ASSET"]
  const DefaultTextureSuffixes: seq<string> := [".tga", ".TAG", ".png", ".PNG", ".psd", ".PSD", ".tif",
    ".TIF", ".tiff", ".TIFF", ".dds", ".DDS", ".jpeg", ".JPEG", ".jpg", ".JPG", ".gif", ".GIF",
    ".bmp", ".BMP", ".exr", ".EXR", ".hdr", ".HDR"]

  /** The settings a freshly created configuration asset holds. */
  function DefaultConfig(): (c: Config)
    ensures c.dep != "" && c.commonDepIndexMax > 0
    ensures c.abDepSingleSizeLimitModel == c.abDepSingleSizeLimitScene == 1048576.0
    ensures c.abDepSingleSizeLimitMaterial * 5.0 == c.abDepSingleSizeLimitModel
  {
    Config(
      dep := "_dep_",
      abPrefixShader := "shader",
      abPrefixModel := "model_",
      abPrefixModelFx := "model_fx",
      abPrefixModelCharacter := "model_role_",
      abPrefixModelWeapon := "model_weapon_",
      abPrefixModelMonster := "model_monster_",
      abPrefixModelScene := "model_scene_",
      abPrefixModelOther := "model_other_",
      abPrefixModelDep := "model_dep_",
      abPrefixModelDepCommonTex := "model_dep_common_tex_",
      abPrefixModelDepMaterial := "model_dep_mat_",
      abPrefixScene := "scene_",
      abPrefixSceneDep := "scene_dep_",
      abPrefixSceneDepMeterial := "scene_dep_mat_",
      abPrefixSceneDepPrefab := "scene_dep_prefab_",
      abPrefixSceneDepMeterialCommonTex := "scene_dep_mat_common_tex_",
      abPrefixSceneDepCommonTex := "scene_dep_common_tex_",
      abPrefixSceneDepCommonAsset := "scene_dep_common_asset_",
      abPrefixSceneDepCommonPrefab := "scene_dep_common_prefab_",
      abPrefixUi := "ui_",
      abPrefixUiBigImage := "ui_big_image_",
      resDirModel := "Assets/ResModel",
      resDirModelFx := "Assets/ResModel/Effects",
      resDirModelCharater := "Assets/ResModel/Character",
      resDirModelWeapon := "Assets/ResModel/Weapon",
      resDirModelMonster := "Assets/ResModel/Monster",
      resDirModelOther := "Assets/ResModel/Other",
      resDirScene := "Assets/ResScene",
      resDirUi := "Assets/ResUI",
      resDirUiBigImage := "Assets/ResUI/big_image",
      fileSuffixMaterial := DefaultMaterialSuffixes,
      fileSuffixPrefab := DefaultPrefabSuffixes,
      fileSuffixScript := DefaultScriptSuffixes,
      fileSuffixShader := DefaultShaderSuffixes,
      fileSuffixAsset := DefaultAssetSuffixes,
      fileSuffixTexture := DefaultTextureSuffixes,
      abDepSingleSizeLimitMaterial := 0.2 * 1024.0 * 1024.0,
      abDepSingleSizeLimitModel := 1.0 * 1024.0 * 1024.0,
      abDepSingleSizeLimitScene := 1.0 * 1024.0 * 1024.0,
      commonDepIndexMax := 5)
  }

  /** Replacing ".TAG" by ".TGA" at the head of a list whose tail holds no ".TAG". */
  lemma ReplaceTagByTga(rest: seq<string>)
    requires ".TAG" !in rest
    ensures forall s :: s in [".tga", ".TGA"] + rest <==> s == ".TGA" || (s in [".tga", ".TAG"] + rest && s != ".TAG")
  {
  }

  /** No default texture suffix after the first two is ".TAG": none has an 'A' at index 2. */
  lemma DefaultTextureSuffixesTail()
    ensures DefaultTextureSuffixes == [".tga", ".TAG"] + DefaultTextureSuffixes[2..]
    ensures ".TAG" !in DefaultTextureSuffixes[2..]
  {
    var rest := DefaultTextureSuffixes[2..];
    forall i | 0 <= i < |rest|
      ensures |rest[i]| > 2 && rest[i][2] != 'A'
    {
    }
  }

  /** Replacing the first two default texture suffixes by ".tga" and ".TGA" drops ".TAG", adds ".TGA" and keeps the rest. */
  lemma IntendedTextureSuffixes()
    ensures forall s :: s in [".tga", ".TGA"] + DefaultTextureSuffixes[2..] <==>
                        s == ".TGA" || (s in DefaultTextureSuffixes && s != ".TAG")
  {
    DefaultTextureSuffixesTail();
    ReplaceTagByTga(DefaultTextureSuffixes[2..]);
  }

  /** The default settings with the texture suffix ".TAG" read as the evidently meant ".TGA". */
  function IntendedConfig(): (c: Config)
    ensures c == DefaultConfig().(fileSuffixTexture := c.fileSuffixTexture)
    ensures forall s :: s in c.fileSuffixTexture <==> s == ".TGA" || (s in DefaultTextureSuffixes && s != ".TAG")
  {
    IntendedTextureSuffixes();
    DefaultConfig().(fileSuffixTexture := [".tga", ".TGA"] + DefaultTextureSuffixes[2..])
  }

  // ---------------------------------------------------------------------------
  // Bundle-name checks

  /** A bundle name is valid when it is null, empty, or starts with a top-level prefix. */
  function IsValidABName(c: Config, abName: Option<string>): (r: bool)
    ensures abName == None || abName == Some("") ==> r
    ensures abName.Some? && abName.value != "" ==>
              (r <==> (StartsWith(abName.value, c.abPrefixModel) || StartsWith(abName.value, c.abPrefixScene)
                       || StartsWith(abName.value, c.abPrefixUi) || StartsWith(abName.value, c.abPrefixShader)))
  {
    match abName
    case None => true
    case Some(n) =>
      if n == "" then true
      else (StartsWith(n, c.abPrefixModel) || StartsWith(n, c.abPrefixScene)
            || StartsWith(n, c.abPrefixUi) || StartsWith(n, c.abPrefixShader))
  }

  /** A bundle name is a dependency bundle when it is non-empty and contains the `dep` marker. */
  function IsDepABName(c: Config, abName: Option<string>): (r: bool)
    ensures abName == None || abName == Some("") ==> !r
    ensures abName.Some? && abName.value != "" ==> (r <==> Contains(abName.value, c.dep))
  {
    match abName
    case None => false
    case Some(n) => if n == "" then false else IndexOf(n, c.dep) >= 0
  }

  /** Appends the `dep` marker; a null name concatenates as the empty string. */
  function GetABNameWithDepSuffix(c: Config, abName: Option<string>): (r: string)
    ensures EndsWith(r, c.dep)
    ensures abName.Some? ==> StartsWith(r, abName.value) && |r| == |abName.value| + |c.dep|
    ensures abName.None? ==> r == c.dep
  {
    (match abName case None => "" case Some(n) => n) + c.dep
  }

  // ---------------------------------------------------------------------------
  // Directory tests

  function IsModel(c: Config, path: string): (r: bool)
    ensures r <==> |c.resDirModel| <= |path| && path[..|c.resDirModel|] == c.resDirModel
  {
    StartsWith(path, c.resDirModel)
  }

  function IsScene(c: Config, path: string): (r: bool)
    ensures r <==> |c.resDirScene| <= |path| && path[..|c.resDirScene|] == c.resDirScene
  {
    StartsWith(path, c.resDirScene)
  }

  function IsUI(c: Config, path: string): (r: bool)
    ensures r <==> |c.resDirUi| <= |path| && path[..|c.resDirUi|] == c.resDirUi
  {
    StartsWith(path, c.resDirUi)
  }

  function IsUIBigImage(c: Config, path: string): (r: bool)
    ensures r <==> |c.resDirUiBigImage| <= |path| && path[..|c.resDirUiBigImage|] == c.resDirUiBigImage
  {
    StartsWith(path, c.resDirUiBigImage)
  }

  /** UI assets outside the big-image root are bundled by their directory. */
  function IsUseDirNameForABName(c: Config, path: string): (r: bool)
    ensures r ==> IsUI(c, path)
    ensures IsUIBigImage(c, path) ==> !r
    ensures IsUI(c, path) && !IsUIBigImage(c, path) ==> r
  {
    StartsWith(path, c.resDirUi) && !StartsWith(path, c.resDirUiBigImage)
  }

  /** The root directory that places a path in a category ("" for Other, which has none). */
  function CategoryRoot(c: Config, cat: AssetsCategory): string
  {
    match cat
    case Model => c.resDirModel
    case Scene => c.resDirScene
    case UI => c.resDirUi
    case Other => ""
  }

  /** Position of a category in the order its root is checked. */
  function CategoryRank(cat: AssetsCategory): nat
  {
    match cat
    case Model => 0
    case Scene => 1
    case UI => 2
    case Other => 3
  }

  /** The category is that of the first root, in the order model, scene, UI, that prefixes the path. */
  function GetDepCategory(c: Config, path: string): (r: AssetsCategory)
    ensures r != AssetsCategory.Other ==> StartsWith(path, CategoryRoot(c, r))
    ensures forall k :: CategoryRank(k) < CategoryRank(r) ==> !StartsWith(path, CategoryRoot(c, k))
  {
    if StartsWith(path, c.resDirModel) then Model
    else if StartsWith(path, c.resDirScene) then Scene
    else if StartsWith(path, c.resDirUi) then UI
    else AssetsCategory.Other
  }

  // ---------------------------------------------------------------------------
  // Suffix tests

  /** Some suffix of the list ends the path. */
  predicate HasSuffixIn(path: string, suffixes: seq<string>)
  {
    exists i :: 0 <= i < |suffixes| && EndsWith(path, suffixes[i])
  }

  /** No suffix ends the path when none ends in the path's last character. */
  lemma NoSuffixByLastChar(path: string, suffixes: seq<string>)
    requires path != []
    requires forall s :: s in suffixes ==> s != [] && s[|s| - 1] != path[|path| - 1]
    ensures !HasSuffixIn(path, suffixes)
  {
    forall i | 0 <= i < |suffixes|
      ensures !EndsWith(path, suffixes[i])
    {
      assert suffixes[i] in suffixes;
    }
  }

  /** The foreach search shared by the suffix tests: stops at the first suffix that ends the path. */
  method EndsWithAny(path: string, suffixes: seq<string>) returns (found: bool)
    ensures found <==> exists i :: 0 <= i < |suffixes| && EndsWith(path, suffixes[i])
  {
    for i := 0 to |suffixes|
      invariant forall j :: 0 <= j < i ==> !EndsWith(path, suffixes[j])
    {
      if EndsWith(path, suffixes[i]) {
        return true;
      }
    }
    return false;
  }

  function IsMaterial(c: Config, path: string): (r: bool)
    ensures r <==> exists i :: 0 <= i < |c.fileSuffixMaterial| && EndsWith(path, c.fileSuffixMaterial[i])
  {
    HasSuffixIn(path, c.fileSuffixMaterial)
  }

  function IsPrefab(c: Config, path: string): (r: bool)
    ensures r <==> exists i :: 0 <= i < |c.fileSuffixPrefab| && EndsWith(path, c.fileSuffixPrefab[i])
  {
    HasSuffixIn(path, c.fileSuffixPrefab)
  }

  function IsScript(c: Config, path: string): (r: bool)
    ensures r <==> exists i :: 0 <= i < |c.fileSuffixScript| && EndsWith(path, c.fileSuffixScript[i])
  {
    HasSuffixIn(path, c.fileSuffixScript)
  }

  function IsShader(c: Config, path: string): (r: bool)
    ensures r <==> exists i :: 0 <= i < |c.fileSuffixShader| && EndsWith(path, c.fileSuffixShader[i])
  {
    HasSuffixIn(path, c.fileSuffixShader)
  }

  function IsAsset(c: Config, path: string): (r: bool)
    ensures r <==> exists i :: 0 <= i < |c.fileSuffixAsset| && EndsWith(path, c.fileSuffixAsset[i])
  {
    HasSuffixIn(path, c.fileSuffixAsset)
  }

  function IsTexture(c: Config, path: string): (r: bool)
    ensures r <==> exists i :: 0 <= i < |c.fileSuffixTexture| && EndsWith(path, c.fileSuffixTexture[i])
  {
    HasSuffixIn(path, c.fileSuffixTexture)
  }

  /** The suffix list that identifies each asset type (none for Other). */
  function TypeSuffixes(c: Config, t: AssetsType): seq<string>
  {
    match t
    case Shader => c.fileSuffixShader
    case Material => c.fileSuffixMaterial
    case Texture => c.fileSuffixTexture
    case Prefab => c.fileSuffixPrefab
    case Asset => c.fileSuffixAsset
    case Other => []
  }

  /** Position of an asset type in the order its suffixes are checked. */
  function TypeRank(t: AssetsType): nat
  {
    match t
    case Shader => 0
    case Material => 1
    case Texture => 2
    case Prefab => 3
    case Asset => 4
    case Other => 5
  }

  /**
   * The type is the first, in the order shader, material, texture, prefab, asset,
   * whose suffix list ends the path; Other when none does.
   */
  function GetAssetType(c: Config, path: string): (r: AssetsType)
    ensures r != AssetsType.Other ==> HasSuffixIn(path, TypeSuffixes(c, r))
    ensures forall t :: TypeRank(t) < TypeRank(r) ==> !HasSuffixIn(path, TypeSuffixes(c, t))
  {
    if IsShader(c, path) then Shader
    else if IsMaterial(c, path) then Material
    else if IsTexture(c, path) then Texture
    else if IsPrefab(c, path) then Prefab
    else if IsAsset(c, path) then Asset
    else AssetsType.Other
  }

  /** A dependency is bundled by the dependency rules unless it is UI or of no known type. */
  function IsValidDep(category: AssetsCategory, t: AssetsType): (r: bool)
    ensures r <==> category != UI && t != AssetsType.Other
  {
    if category == UI then false
    else t == Material || t == Texture || t == Shader || t == Prefab || t == Asset
  }

  // ---------------------------------------------------------------------------
  // Default bundle names

  /** A directory root and the bundle-name prefix it selects. */
  datatype Rule = Rule(root: string, prefix: string)

  /** The prefix of the first rule whose root prefixes the path, or "" when none does. */
  function FirstRootMatch(path: string, rules: seq<Rule>): (r: string)
    ensures (forall k :: 0 <= k < |rules| ==> !StartsWith(path, rules[k].root)) ==> r == ""
  {
    if rules == [] then ""
    else if StartsWith(path, rules[0].root) then rules[0].prefix
    else
      assert forall k :: 0 <= k < |rules[1..]| ==> rules[1..][k] == rules[k + 1];
      FirstRootMatch(path, rules[1..])
  }

  /** The directory rules behind the default prefix, most specific root first. */
  function PrefixRules(c: Config): (r: seq<Rule>)
    ensures |r| == 9
  {
    [ Rule(c.resDirModelFx, c.abPrefixModelFx),
      Rule(c.resDirModelCharater, c.abPrefixModelCharacter),
      Rule(c.resDirModelWeapon, c.abPrefixModelWeapon),
      Rule(c.resDirModelMonster, c.abPrefixModelMonster),
      Rule(c.resDirModelOther, c.abPrefixModelOther),
      Rule(c.resDirModel, c.abPrefixModel),
      Rule(c.resDirScene, c.abPrefixScene),
      Rule(c.resDirUiBigImage, c.abPrefixUiBigImage),
      Rule(c.resDirUi, c.abPrefixUi) ]
  }

  /** The default prefix: the shader prefix for shaders, otherwise that of the first matching directory rule. */
  function GetABNamePrefix(c: Config, path: string): (r: string)
    ensures IsShader(c, path) ==> r == c.abPrefixShader
    ensures !IsShader(c, path) ==> r == FirstRootMatch(path, PrefixRules(c))
  {
    var rules := PrefixRules(c);
    assert FirstRootMatch(path, rules[8..]) == if StartsWith(path, c.resDirUi) then c.abPrefixUi else "";
    assert FirstRootMatch(path, rules[7..]) ==
      if StartsWith(path, c.resDirUiBigImage) then c.abPrefixUiBigImage else FirstRootMatch(path, rules[8..]);
    assert FirstRootMatch(path, rules[6..]) ==
      if StartsWith(path, c.resDirScene) then c.abPrefixScene else FirstRootMatch(path, rules[7..]);
    assert FirstRootMatch(path, rules[5..]) ==
      if StartsWith(path, c.resDirModel) then c.abPrefixModel else FirstRootMatch(path, rules[6..]);
    assert FirstRootMatch(path, rules[4..]) ==
      if StartsWith(path, c.resDirModelOther) then c.abPrefixModelOther else FirstRootMatch(path, rules[5..]);
    assert FirstRootMatch(path, rules[3..]) ==
      if StartsWith(path, c.resDirModelMonster) then c.abPrefixModelMonster else FirstRootMatch(path, rules[4..]);
    assert FirstRootMatch(path, rules[2..]) ==
      if StartsWith(path, c.resDirModelWeapon) then c.abPrefixModelWeapon else FirstRootMatch(path, rules[3..]);
    assert FirstRootMatch(path, rules[1..]) ==
      if StartsWith(path, c.resDirModelCharater) then c.abPrefixModelCharacter else FirstRootMatch(path, rules[2..]);
    assert FirstRootMatch(path, rules) ==
      if StartsWith(path, c.resDirModelFx) then c.abPrefixModelFx else FirstRootMatch(path, rules[1..]);
    if IsShader(c, path) then c.abPrefixShader
    else if StartsWith(path, c.resDirModelFx) then c.abPrefixModelFx
    else if StartsWith(path, c.resDirModelCharater) then c.abPrefixModelCharacter
    else if StartsWith(path, c.resDirModelWeapon) then c.abPrefixModelWeapon
    else if StartsWith(path, c.resDirModelMonster) then c.abPrefixModelMonster
    else if StartsWith(path, c.resDirModelOther) then c.abPrefixModelOther
    else if StartsWith(path, c.resDirModel) then c.abPrefixModel
    else if StartsWith(path, c.resDirScene) then c.abPrefixScene
    else if StartsWith(path, c.resDirUiBigImage) then c.abPrefixUiBigImage
    else if StartsWith(path, c.resDirUi) then c.abPrefixUi
    else ""
  }

  /**
   * The first directory below the UI root: the path after the root and one more
   * character, up to its first '/'. None when the path is not under the UI root.
   */
  function GetResUISubDirName(c: Config, path: string): (r: Option<string>)
    requires StartsWith(path, c.resDirUi) ==> |path| > |c.resDirUi|
    ensures r.None? <==> !StartsWith(path, c.resDirUi)
    ensures r.Some? ==> '/' !in r.value && StartsWith(path[|c.resDirUi| + 1..], r.value)
    ensures r.Some? ==> |c.resDirUi| + 1 + |r.value| == |path| || path[|c.resDirUi| + 1 + |r.value|] == '/'
  {
    if !StartsWith(path, c.resDirUi) then None
    else Some(FirstSegment(path[|c.resDirUi| + 1..]))
  }

  /**
   * The default bundle name: the shader prefix alone for shaders; for UI assets outside
   * the big-image root, the prefix and the lower-cased first sub-directory; otherwise
   * the prefix and the lower-cased file name without extension.
   */
  function GetDefaultABName(c: Config, path: string): (r: string)
    requires !IsShader(c, path) && IsUseDirNameForABName(c, path) ==> |path| > |c.resDirUi|
    ensures IsShader(c, path) ==> r == c.abPrefixShader
    ensures !IsShader(c, path) ==> StartsWith(r, GetABNamePrefix(c, path))
    ensures !IsShader(c, path) && IsUseDirNameForABName(c, path) ==>
              r[|GetABNamePrefix(c, path)|..] == Lower(GetResUISubDirName(c, path).value)
    ensures !IsShader(c, path) && !IsUseDirNameForABName(c, path) ==>
              r[|GetABNamePrefix(c, path)|..] == Lower(FileNameWithoutExtension(path))
  {
    if IsShader(c, path) then c.abPrefixShader
    else if IsUseDirNameForABName(c, path) then
      GetABNamePrefix(c, path) + Lower(GetResUISubDirName(c, path).value)
    else
      var fileName := FileNameWithoutExtension(path);
      GetABNamePrefix(c, path) + Lower(fileName)
  }

  // ---------------------------------------------------------------------------
  // Dependency bundles

  /** The sum of a digest's bytes. */
  function ByteSum(bytes: seq<byte>): (r: int)
    ensures 0 <= r <= 255 * |bytes|
  {
    if bytes == [] then 0 else ByteSum(bytes[..|bytes| - 1]) + bytes[|bytes| - 1] as int
  }

  /** The shared-dependency bucket of a path: its digest's byte sum modulo the bucket count. */
  function CommonDepIndex(c: Config, digest: string -> seq<byte>, path: string): (r: nat)
    requires c.commonDepIndexMax != 0
    ensures r < c.commonDepIndexMax || r < -c.commonDepIndexMax
  {
    ByteSum(digest(path)) % c.commonDepIndexMax
  }

  /** Sums the digest's bytes in a loop and reduces the sum modulo the bucket count. */
  method GetCommonDepIndex(c: Config, digest: string -> seq<byte>, path: string) returns (index: int)
    requires c.commonDepIndexMax != 0
    ensures index == CommonDepIndex(c, digest, path)
    ensures 0 <= index && (index < c.commonDepIndexMax || index < -c.commonDepIndexMax)
  {
    var sum := 0;
    var byteHash := digest(path);
    for i := 0 to |byteHash|
      invariant sum == ByteSum(byteHash[..i])
    {
      assert byteHash[..i + 1][..i] == byteHash[..i];
      sum := sum + byteHash[i] as int;
    }
    assert byteHash[..|byteHash|] == byteHash;
    index := sum % c.commonDepIndexMax;
  }

  /** A Model asset, or a Scene asset, strictly larger than its category's limit gets a bundle of its own. */
  function IsNeedSetSingleABName(c: Config, info: AssetsInfo): (r: bool)
    ensures info.category == Model ==> (r <==> info.size as real > c.abDepSingleSizeLimitModel)
    ensures info.category == Scene ==> (r <==> info.size as real > c.abDepSingleSizeLimitScene)
    ensures info.category != Model && info.category != Scene ==> !r
  {
    (info.category == Model && info.size as real > c.abDepSingleSizeLimitModel)
    || (info.category == Scene && info.size as real > c.abDepSingleSizeLimitScene)
  }

  /** The (category, type) pairs that may get a dedicated dependency bundle. */
  predicate IsSingleNamed(category: AssetsCategory, t: AssetsType)
  {
    (category == Model || category == Scene) && (t == Texture || t == Prefab || t == Asset)
  }

  /** The (category, type) pairs that are grouped into shared buckets. */
  predicate IsCommonGrouped(category: AssetsCategory, t: AssetsType)
  {
    (category == Model && t == Texture) || (category == Scene && (t == Texture || t == Asset))
  }

  /** The shared-bucket prefix of a grouped (category, type) pair. */
  function CommonPrefix(c: Config, category: AssetsCategory, t: AssetsType): string
    requires IsCommonGrouped(category, t)
  {
    if category == Model then c.abPrefixModelDepCommonTex
    else if t == Texture then c.abPrefixSceneDepCommonTex
    else c.abPrefixSceneDepCommonAsset
  }

  /** The dedicated dependency bundle: the category's dependency prefix and the lower-cased asset name. */
  function GetDepSingleABName(c: Config, info: AssetsInfo): (r: Option<string>)
    ensures r.Some? <==> IsSingleNamed(info.category, info.assetType)
    ensures r.Some? && info.category == Model ==>
              StartsWith(r.value, c.abPrefixModelDep) && r.value[|c.abPrefixModelDep|..] == Lower(info.name)
    ensures r.Some? && info.category == Scene ==>
              StartsWith(r.value, c.abPrefixSceneDep) && r.value[|c.abPrefixSceneDep|..] == Lower(info.name)
  {
    match info.category
    case Model =>
      if info.assetType == Texture || info.assetType == Prefab || info.assetType == Asset
      then Some(c.abPrefixModelDep + Lower(info.name))
      else None
    case Scene =>
      if info.assetType == Texture || info.assetType == Prefab || info.assetType == Asset
      then Some(c.abPrefixSceneDep + Lower(info.name))
      else None
    case _ => None
  }

  /** The shared dependency bundle: the pair's common prefix followed by the decimal bucket index. */
  function GetDepCommonABName(c: Config, digest: string -> seq<byte>, info: AssetsInfo): (r: Option<string>)
    requires IsCommonGrouped(info.category, info.assetType) ==> c.commonDepIndexMax != 0
    ensures r.Some? <==> IsCommonGrouped(info.category, info.assetType)
    ensures r.Some? ==>
              var p := CommonPrefix(c, info.category, info.assetType);
              StartsWith(r.value, p) && r.value[|p|..] == Decimal(CommonDepIndex(c, digest, info.path))
  {
    match info.category
    case Model =>
      if info.assetType == Texture
      then Some(c.abPrefixModelDepCommonTex + Decimal(CommonDepIndex(c, digest, info.path)))
      else None
    case Scene =>
      if info.assetType == Texture
      then Some(c.abPrefixSceneDepCommonTex + Decimal(CommonDepIndex(c, digest, info.path)))
      else if info.assetType == Asset
      then Some(c.abPrefixSceneDepCommonAsset + Decimal(CommonDepIndex(c, digest, info.path)))
      else None
    case _ => None
  }

  /**
   * The bundle a dependency is given: a dedicated one when it is large enough,
   * otherwise a shared bucket; None when its pair has no rule on that side.
   */
  function GetDepNeedSetABName(c: Config, digest: string -> seq<byte>, info: AssetsInfo): (r: Option<string>)
    requires !IsNeedSetSingleABName(c, info) && IsCommonGrouped(info.category, info.assetType)
             ==> c.commonDepIndexMax != 0
    ensures r.Some? <==>
              if IsNeedSetSingleABName(c, info) then IsSingleNamed(info.category, info.assetType)
              else IsCommonGrouped(info.category, info.assetType)
    ensures r.Some? && IsNeedSetSingleABName(c, info) ==>
              var p := if info.category == Model then c.abPrefixModelDep else c.abPrefixSceneDep;
              StartsWith(r.value, p) && r.value[|p|..] == Lower(info.name)
    ensures r.Some? && !IsNeedSetSingleABName(c, info) ==>
              var p := CommonPrefix(c, info.category, info.assetType);
              StartsWith(r.value, p) && r.value[|p|..] == Decimal(CommonDepIndex(c, digest, info.path))
    ensures info.assetType == Material || info.assetType == Shader || info.assetType == AssetsType.Other ==> r.None?
    ensures info.category == UI || info.category == AssetsCategory.Other ==> r.None?
    ensures info.category == Model && info.assetType != Texture && !IsNeedSetSingleABName(c, info) ==> r.None?
  {
    if IsNeedSetSingleABName(c, info) then GetDepSingleABName(c, info)
    else GetDepCommonABName(c, digest, info)
  }

  /** GetSceneDepMaterialABName(fileName): the scene material prefix and the lower-cased name. */
  function SceneDepMaterialABName(c: Config, fileName: string): (r: string)
    ensures StartsWith(r, c.abPrefixSceneDepMeterial)
    ensures r[|c.abPrefixSceneDepMeterial|..] == Lower(fileName)
  {
    c.abPrefixSceneDepMeterial + Lower(fileName)
  }

  /** GetSceneDepPrefabABName(fileName): the scene prefab prefix and the lower-cased name. */
  function SceneDepPrefabABName(c: Config, fileName: string): (r: string)
    ensures StartsWith(r, c.abPrefixSceneDepPrefab)
    ensures r[|c.abPrefixSceneDepPrefab|..] == Lower(fileName)
  {
    c.abPrefixSceneDepPrefab + Lower(fileName)
  }

  /** GetSceneDepMaterialABName(fileName, fileSize): a named bundle above the material limit, else the shared texture bundle. */
  function SceneDepMaterialABNameBySize(c: Config, fileName: string, fileSize: int): (r: string)
    ensures fileSize as real > c.abDepSingleSizeLimitMaterial ==>
              StartsWith(r, c.abPrefixSceneDepMeterial) && r[|c.abPrefixSceneDepMeterial|..] == Lower(fileName)
    ensures fileSize as real <= c.abDepSingleSizeLimitMaterial ==> r == c.abPrefixSceneDepCommonTex
  {
    if fileSize as real > c.abDepSingleSizeLimitMaterial then SceneDepMaterialABName(c, fileName)
    else c.abPrefixSceneDepCommonTex
  }

  /**
   * GetSceneDepPrefabABName(fileName, fileSize) as written: above the material limit it
   * returns the MATERIAL name, not the prefab one; otherwise the shared prefab bundle.
   */
  function SceneDepPrefabABNameBySize(c: Config, fileName: string, fileSize: int): (r: string)
    ensures fileSize as real > c.abDepSingleSizeLimitMaterial ==>
              StartsWith(r, c.abPrefixSceneDepMeterial) && r[|c.abPrefixSceneDepMeterial|..] == Lower(fileName)
    ensures fileSize as real <= c.abDepSingleSizeLimitMaterial ==> r == c.abPrefixSceneDepCommonPrefab
  {
    if fileSize as real > c.abDepSingleSizeLimitMaterial then SceneDepMaterialABName(c, fileName)
    else c.abPrefixSceneDepCommonPrefab
  }

  /** GetSceneDepPrefabABName(fileName, fileSize) as evidently intended: a large prefab gets the prefab name. */
  function IntendedSceneDepPrefabABNameBySize(c: Config, fileName: string, fileSize: int): (r: string)
    ensures fileSize as real > c.abDepSingleSizeLimitMaterial ==>
              StartsWith(r, c.abPrefixSceneDepPrefab) && r[|c.abPrefixSceneDepPrefab|..] == Lower(fileName)
    ensures fileSize as real <= c.abDepSingleSizeLimitMaterial ==> r == c.abPrefixSceneDepCommonPrefab
  {
    if fileSize as real > c.abDepSingleSizeLimitMaterial then SceneDepPrefabABName(c, fileName)
    else c.abPrefixSceneDepCommonPrefab
  }
}
