/**
 * Properties of the bundle-naming rules: which rule wins when directory roots
 * overlap, which names the rules produce, how bucket names encode their bucket,
 * and the behaviour of the default settings.
 */
module ABConfigProperties {
  import opened Wrappers
  import opened Strings
  import opened ABConfig

  /** Neither root is a prefix of the other, so no path lies under both. */
  predicate Disjoint(a: string, b: string)
  {
    !StartsWith(a, b) && !StartsWith(b, a)
  }

  /**
   * The directory layout the precedence rules are written for: the five model
   * sub-roots lie under the model root and are pairwise disjoint, the big-image
   * root lies under the UI root, and the model, scene and UI roots are pairwise disjoint.
   */
  predicate Nested(c: Config)
  {
    var rules := PrefixRules(c);
    && (forall k :: 0 <= k < 5 ==> StartsWith(rules[k].root, c.resDirModel))
    && (forall j, k :: 0 <= j < k < 5 ==> Disjoint(rules[j].root, rules[k].root))
    && StartsWith(c.resDirUiBigImage, c.resDirUi)
    && Disjoint(c.resDirModel, c.resDirScene)
    && Disjoint(c.resDirModel, c.resDirUi)
    && Disjoint(c.resDirScene, c.resDirUi)
  }

  /** Every directory prefix begins with the top-level prefix that IsValidABName accepts. */
  predicate PrefixesNested(c: Config)
  {
    && StartsWith(c.abPrefixModelFx, c.abPrefixModel)
    && StartsWith(c.abPrefixModelCharacter, c.abPrefixModel)
    && StartsWith(c.abPrefixModelWeapon, c.abPrefixModel)
    && StartsWith(c.abPrefixModelMonster, c.abPrefixModel)
    && StartsWith(c.abPrefixModelOther, c.abPrefixModel)
    && StartsWith(c.abPrefixUiBigImage, c.abPrefixUi)
  }

  /** Every dependency prefix carries the `dep` marker and begins with its category's top-level prefix. */
  predicate DepPrefixesMarked(c: Config)
  {
    && c.dep != ""
    && Contains(c.abPrefixModelDep, c.dep) && StartsWith(c.abPrefixModelDep, c.abPrefixModel)
    && Contains(c.abPrefixSceneDep, c.dep) && StartsWith(c.abPrefixSceneDep, c.abPrefixScene)
    && Contains(c.abPrefixModelDepCommonTex, c.dep) && StartsWith(c.abPrefixModelDepCommonTex, c.abPrefixModel)
    && Contains(c.abPrefixSceneDepCommonTex, c.dep) && StartsWith(c.abPrefixSceneDepCommonTex, c.abPrefixScene)
    && Contains(c.abPrefixSceneDepCommonAsset, c.dep) && StartsWith(c.abPrefixSceneDepCommonAsset, c.abPrefixScene)
  }

  // ---------------------------------------------------------------------------
  // Precedence of the directory rules

  /** The first rule whose root matches decides the prefix. */
  lemma {:induction false} FirstRootMatchAt(path: string, rules: seq<Rule>, k: nat)
    requires k < |rules| && StartsWith(path, rules[k].root)
    requires forall j :: 0 <= j < k ==> !StartsWith(path, rules[j].root)
    ensures FirstRootMatch(path, rules) == rules[k].prefix
  {
    if k > 0 {
      assert !StartsWith(path, rules[0].root);
      assert forall j :: 0 <= j < k - 1 ==> rules[1..][j] == rules[j + 1];
      FirstRootMatchAt(path, rules[1..], k - 1);
    }
  }

  /**
   * The rules are ordered most specific first: with nested roots, a rule's root never
   * strictly extends the root of an earlier rule, so no rule is shadowed by a more general one.
   */
  lemma MoreSpecificRootsFirst(c: Config)
    requires Nested(c)
    ensures var rules := PrefixRules(c);
      forall j, k :: 0 <= j < k < |rules| && StartsWith(rules[k].root, rules[j].root) ==> rules[k].root == rules[j].root
  {
  }

  /** A path outside the model root lies under none of the model sub-roots. */
  lemma OutsideModelRoot(c: Config, path: string)
    requires Nested(c) && !StartsWith(path, c.resDirModel)
    ensures forall k :: 0 <= k < 5 ==> !StartsWith(path, PrefixRules(c)[k].root)
    ensures !StartsWith(path, c.resDirModelFx) && !StartsWith(path, c.resDirModelCharater)
    ensures !StartsWith(path, c.resDirModelWeapon) && !StartsWith(path, c.resDirModelMonster)
    ensures !StartsWith(path, c.resDirModelOther)
  {
    var rules := PrefixRules(c);
    forall k | 0 <= k < 5
      ensures !StartsWith(path, rules[k].root)
    {
      if StartsWith(path, rules[k].root) {
        StartsWithTransitive(path, rules[k].root, c.resDirModel);
      }
    }
    assert rules[0].root == c.resDirModelFx && rules[1].root == c.resDirModelCharater;
    assert rules[2].root == c.resDirModelWeapon && rules[3].root == c.resDirModelMonster;
    assert rules[4].root == c.resDirModelOther;
  }

  /** A path under a model sub-root such as Character gets that sub-root's prefix, not the generic model one. */
  lemma ModelSubRootWins(c: Config, path: string, k: nat)
    requires Nested(c) && !IsShader(c, path)
    requires k < 5 && StartsWith(path, PrefixRules(c)[k].root)
    ensures GetABNamePrefix(c, path) == PrefixRules(c)[k].prefix
  {
    var rules := PrefixRules(c);
    forall j | 0 <= j < k
      ensures !StartsWith(path, rules[j].root)
    {
      if StartsWith(path, rules[j].root) {
        PrefixesAreComparable(path, rules[j].root, rules[k].root);
      }
    }
    FirstRootMatchAt(path, rules, k);
  }

  /** A path under the big-image root gets the big-image prefix, even though it is also under the UI root. */
  lemma BigImageWins(c: Config, path: string)
    requires Nested(c) && !IsShader(c, path)
    requires StartsWith(path, c.resDirUiBigImage)
    ensures GetABNamePrefix(c, path) == c.abPrefixUiBigImage
  {
    var rules := PrefixRules(c);
    StartsWithTransitive(path, c.resDirUiBigImage, c.resDirUi);
    if StartsWith(path, c.resDirModel) {
      PrefixesAreComparable(path, c.resDirModel, c.resDirUi);
    }
    if StartsWith(path, c.resDirScene) {
      PrefixesAreComparable(path, c.resDirScene, c.resDirUi);
    }
    OutsideModelRoot(c, path);
    FirstRootMatchAt(path, rules, 7);
  }

  /** The default prefix agrees with the category: each category gets only its own prefixes, Other gets "". */
  lemma PrefixFollowsCategory(c: Config, path: string)
    requires Nested(c) && !IsShader(c, path)
    ensures var p := GetABNamePrefix(c, path);
      match GetDepCategory(c, path)
      case Model =>
        p == c.abPrefixModelFx || p == c.abPrefixModelCharacter || p == c.abPrefixModelWeapon
        || p == c.abPrefixModelMonster || p == c.abPrefixModelOther || p == c.abPrefixModel
      case Scene => p == c.abPrefixScene
      case UI => p == (if StartsWith(path, c.resDirUiBigImage) then c.abPrefixUiBigImage else c.abPrefixUi)
      case Other => p == ""
  {
    if !StartsWith(path, c.resDirModel) {
      OutsideModelRoot(c, path);
      if !StartsWith(path, c.resDirScene) && !StartsWith(path, c.resDirUi) && StartsWith(path, c.resDirUiBigImage) {
        StartsWithTransitive(path, c.resDirUiBigImage, c.resDirUi);
      }
    }
  }

  /** Under the UI root but not the big-image root, the default name is the UI prefix and the lower-cased first sub-directory. */
  lemma UIDirDefaultName(c: Config, path: string)
    requires Nested(c) && !IsShader(c, path)
    requires IsUseDirNameForABName(c, path) && |path| > |c.resDirUi|
    ensures GetDefaultABName(c, path) == c.abPrefixUi + Lower(FirstSegment(path[|c.resDirUi| + 1..]))
  {
    if StartsWith(path, c.resDirModel) {
      PrefixesAreComparable(path, c.resDirModel, c.resDirUi);
    }
    if StartsWith(path, c.resDirScene) {
      PrefixesAreComparable(path, c.resDirScene, c.resDirUi);
    }
    PrefixFollowsCategory(c, path);
  }

  /** Under the big-image root, the default name is the big-image prefix and the lower-cased file name. */
  lemma BigImageDefaultName(c: Config, path: string)
    requires Nested(c) && !IsShader(c, path)
    requires StartsWith(path, c.resDirUiBigImage)
    ensures GetDefaultABName(c, path) == c.abPrefixUiBigImage + Lower(FileNameWithoutExtension(path))
  {
    BigImageWins(c, path);
  }

  /** The default name of `root/stem.ext` under a model sub-root: that sub-root's prefix and the lower-cased stem. */
  lemma SubRootFileName(c: Config, k: nat, stem: string, ext: string)
    requires Nested(c) && k < 5
    requires '/' !in stem && '/' !in ext && '.' !in ext
    requires !IsShader(c, PrefixRules(c)[k].root + "/" + stem + "." + ext)
    ensures GetDefaultABName(c, PrefixRules(c)[k].root + "/" + stem + "." + ext) == PrefixRules(c)[k].prefix + Lower(stem)
  {
    var root := PrefixRules(c)[k].root;
    var path := root + "/" + stem + "." + ext;
    assert path == root + "/" + (stem + "." + ext);
    UnderRoot(root, stem + "." + ext);
    ModelSubRootWins(c, path, k);
    StartsWithTransitive(path, root, c.resDirModel);
    if StartsWith(path, c.resDirUi) {
      PrefixesAreComparable(path, c.resDirModel, c.resDirUi);
    }
    FileNameWithoutExtensionOf(root, stem, ext);
  }

  /** The default name of `stem.ext` directly under the big-image root: the big-image prefix and the lower-cased stem. */
  lemma BigImageFileName(c: Config, stem: string, ext: string)
    requires Nested(c)
    requires '/' !in stem && '/' !in ext && '.' !in ext
    requires !IsShader(c, c.resDirUiBigImage + "/" + stem + "." + ext)
    ensures GetDefaultABName(c, c.resDirUiBigImage + "/" + stem + "." + ext) == c.abPrefixUiBigImage + Lower(stem)
  {
    var root := c.resDirUiBigImage;
    var path := root + "/" + stem + "." + ext;
    assert path == root + "/" + (stem + "." + ext);
    UnderRoot(root, stem + "." + ext);
    BigImageDefaultName(c, path);
    FileNameWithoutExtensionOf(root, stem, ext);
  }

  /** Every file in the UI directory `dir` (outside the big-image root) gets the name of that directory. */
  lemma UIDirFileName(c: Config, dir: string, file: string)
    requires Nested(c) && '/' !in dir
    requires !IsShader(c, c.resDirUi + "/" + dir + "/" + file)
    requires !StartsWith(c.resDirUi + "/" + dir + "/" + file, c.resDirUiBigImage)
    ensures GetDefaultABName(c, c.resDirUi + "/" + dir + "/" + file) == c.abPrefixUi + Lower(dir)
  {
    var path := c.resDirUi + "/" + dir + "/" + file;
    assert path == c.resDirUi + "/" + (dir + "/" + file);
    UnderRoot(c.resDirUi, dir + "/" + file);
    UIDirDefaultName(c, path);
    FirstSegmentBeforeSlash(dir, file);
  }

  /** The default name of a shader, or of any asset under a resource root, passes IsValidABName. */
  lemma DefaultNamesAreValid(c: Config, path: string)
    requires Nested(c) && PrefixesNested(c)
    requires IsShader(c, path) || GetDepCategory(c, path) != AssetsCategory.Other
    requires !IsShader(c, path) && IsUseDirNameForABName(c, path) ==> |path| > |c.resDirUi|
    ensures IsValidABName(c, Some(GetDefaultABName(c, path)))
  {
    var name := GetDefaultABName(c, path);
    if IsShader(c, path) {
      assert StartsWith(name, c.abPrefixShader);
    } else {
      var p := GetABNamePrefix(c, path);
      PrefixFollowsCategory(c, path);
      var top :=
        match GetDepCategory(c, path)
        case Model => c.abPrefixModel
        case Scene => c.abPrefixScene
        case _ => c.abPrefixUi;
      assert StartsWith(p, top);
      StartsWithTransitive(name, p, top);
    }
  }

  // ---------------------------------------------------------------------------
  // Dependency bundle names

  /** Appending the `dep` marker always yields a dependency bundle name. */
  lemma DepSuffixRoundTrip(c: Config, abName: Option<string>)
    requires c.dep != ""
    ensures IsDepABName(c, Some(GetABNameWithDepSuffix(c, abName)))
  {
    var r := GetABNameWithDepSuffix(c, abName);
    assert OccursAt(r, c.dep, |r| - |c.dep|);
  }

  /** A non-null dependency bundle name is both a dependency name and a valid name. */
  lemma DepNamesAreMarked(c: Config, digest: string -> seq<byte>, info: AssetsInfo)
    requires DepPrefixesMarked(c)
    requires !IsNeedSetSingleABName(c, info) && IsCommonGrouped(info.category, info.assetType)
             ==> c.commonDepIndexMax != 0
    requires GetDepNeedSetABName(c, digest, info).Some?
    ensures IsDepABName(c, GetDepNeedSetABName(c, digest, info))
    ensures IsValidABName(c, GetDepNeedSetABName(c, digest, info))
  {
    var r := GetDepNeedSetABName(c, digest, info).value;
    var p :=
      if IsNeedSetSingleABName(c, info) then
        (if info.category == Model then c.abPrefixModelDep else c.abPrefixSceneDep)
      else CommonPrefix(c, info.category, info.assetType);
    var top := if info.category == Model then c.abPrefixModel else c.abPrefixScene;
    assert StartsWith(r, p) && StartsWith(p, top);
    var i :| OccursAt(p, c.dep, i);
    OccursAtAppend(p, r[|p|..], c.dep, i);
    assert p + r[|p|..] == r;
    StartsWithTransitive(r, p, top);
  }

  /** A shared bucket name is the pair's common prefix followed by the decimal text of a bucket index below the bucket count. */
  lemma CommonNameEncodesBucket(c: Config, digest: string -> seq<byte>, info: AssetsInfo)
    requires c.commonDepIndexMax > 0
    requires IsCommonGrouped(info.category, info.assetType)
    ensures var r := GetDepCommonABName(c, digest, info).value;
      var p := CommonPrefix(c, info.category, info.assetType);
      && StartsWith(r, p)
      && (forall i :: |p| <= i < |r| ==> IsDigit(r[i]))
      && DecimalValue(r[|p|..]) == CommonDepIndex(c, digest, info.path)
      && DecimalValue(r[|p|..]) < c.commonDepIndexMax
  {
    var r := GetDepCommonABName(c, digest, info).value;
    var p := CommonPrefix(c, info.category, info.assetType);
    var d := Decimal(CommonDepIndex(c, digest, info.path));
    assert r[|p|..] == d;
    forall i | |p| <= i < |r|
      ensures IsDigit(r[i])
    {
      assert r[i] == d[i - |p|];
    }
    DecimalRoundTrip(CommonDepIndex(c, digest, info.path));
  }

  // ---------------------------------------------------------------------------
  // The default settings

  /** Two roots that differ at some index within both are disjoint. */
  lemma DisjointAt(a: string, b: string, i: nat)
    requires i < |a| && i < |b| && a[i] != b[i]
    ensures Disjoint(a, b)
  {
  }

  /** The five default model sub-roots lie under "Assets/ResModel". */
  lemma DefaultSubRootsUnderModel()
    ensures forall k :: 0 <= k < 5 ==> StartsWith(PrefixRules(DefaultConfig())[k].root, DefaultConfig().resDirModel)
  {
    var c := DefaultConfig();
    var rules := PrefixRules(c);
    forall k | 0 <= k < 5
      ensures StartsWith(rules[k].root, c.resDirModel)
    {
    }
  }

  /** The five default model sub-roots differ at index 16, the first character after "Assets/ResModel/". */
  lemma DefaultSubRootsDisjoint()
    ensures forall j, k :: 0 <= j < k < 5 ==> Disjoint(PrefixRules(DefaultConfig())[j].root, PrefixRules(DefaultConfig())[k].root)
  {
    var rules := PrefixRules(DefaultConfig());
    forall j, k | 0 <= j < k < 5
      ensures Disjoint(rules[j].root, rules[k].root)
    {
      DisjointAt(rules[j].root, rules[k].root, 16);
    }
  }

  /** "Assets/ResModel", "Assets/ResScene" and "Assets/ResUI" differ at index 10. */
  lemma DefaultTopRootsDisjoint()
    ensures var c := DefaultConfig();
      && StartsWith(c.resDirUiBigImage, c.resDirUi)
      && Disjoint(c.resDirModel, c.resDirScene)
      && Disjoint(c.resDirModel, c.resDirUi)
      && Disjoint(c.resDirScene, c.resDirUi)
  {
    var c := DefaultConfig();
    DisjointAt(c.resDirModel, c.resDirScene, 10);
    DisjointAt(c.resDirModel, c.resDirUi, 10);
    DisjointAt(c.resDirScene, c.resDirUi, 10);
  }

  /** The default roots have the layout `Nested` describes. */
  lemma DefaultConfigIsNested()
    ensures Nested(DefaultConfig())
  {
    DefaultSubRootsUnderModel();
    DefaultSubRootsDisjoint();
    DefaultTopRootsDisjoint();
  }

  /**
   * The default prefixes nest under their top-level prefixes, and the five
   * prefixes the dependency rules use carry "_dep_" (at index 5).
   */
  lemma DefaultConfigPrefixes()
    ensures PrefixesNested(DefaultConfig())
    ensures DepPrefixesMarked(DefaultConfig())
  {
    var c := DefaultConfig();
    assert OccursAt(c.abPrefixModelDep, c.dep, 5);
    assert OccursAt(c.abPrefixSceneDep, c.dep, 5);
    assert OccursAt(c.abPrefixModelDepCommonTex, c.dep, 5);
    assert OccursAt(c.abPrefixSceneDepCommonTex, c.dep, 5);
    assert OccursAt(c.abPrefixSceneDepCommonAsset, c.dep, 5);
  }

  // The default suffix lists, characterised by the last characters of their suffixes.

  lemma NoDefaultShaderSuffix(path: string)
    requires path != [] && path[|path| - 1] !in "rR"
    ensures !HasSuffixIn(path, DefaultShaderSuffixes)
  {
    NoSuffixByLastChar(path, DefaultShaderSuffixes);
  }

  lemma NoDefaultMaterialSuffix(path: string)
    requires path != [] && path[|path| - 1] !in "tT"
    ensures !HasSuffixIn(path, DefaultMaterialSuffixes)
  {
    NoSuffixByLastChar(path, DefaultMaterialSuffixes);
  }

  /** The letters a default texture suffix can end in. */
  predicate TextureLastChar(ch: char)
  {
    ch == 'a' || ch == 'G' || ch == 'g' || ch == 'd' || ch == 'D' || ch == 'f' || ch == 'F'
    || ch == 's' || ch == 'S' || ch == 'p' || ch == 'P' || ch == 'r' || ch == 'R'
  }

  /** Every default texture suffix ends in one of those letters. */
  lemma DefaultTextureLastChars()
    ensures forall i :: 0 <= i < |DefaultTextureSuffixes| ==>
      DefaultTextureSuffixes[i] != [] && TextureLastChar(DefaultTextureSuffixes[i][|DefaultTextureSuffixes[i]| - 1])
  {
  }

  lemma NoDefaultTextureSuffix(path: string)
    requires path != [] && path[|path| - 1] !in "aGgdDfFsSpPrR"
    ensures !HasSuffixIn(path, DefaultTextureSuffixes)
  {
    DefaultTextureLastChars();
    assert !TextureLastChar(path[|path| - 1]);
    NoSuffixByLastChar(path, DefaultTextureSuffixes);
  }

  lemma NoDefaultPrefabSuffix(path: string)
    requires path != [] && path[|path| - 1] !in "bBxXjJ"
    ensures !HasSuffixIn(path, DefaultPrefabSuffixes)
  {
    NoSuffixByLastChar(path, DefaultPrefabSuffixes);
  }

  lemma NoDefaultAssetSuffix(path: string)
    requires path != [] && path[|path| - 1] !in "tT"
    ensures !HasSuffixIn(path, DefaultAssetSuffixes)
  {
    NoSuffixByLastChar(path, DefaultAssetSuffixes);
  }

  /** With the default settings a shader file, wherever it lies, is bundled as "shader". */
  lemma ShaderExample(path: string)
    requires EndsWith(path, ".shader")
    ensures IsShader(DefaultConfig(), path) && GetDefaultABName(DefaultConfig(), path) == "shader"
  {
    assert EndsWith(path, DefaultConfig().fileSuffixShader[0]);
  }

  /** A character model file is a Model-category prefab. */
  lemma CharacterKind(stem: string)
    ensures GetAssetType(DefaultConfig(), "Assets/ResModel/Character/" + stem + ".fbx") == Prefab
    ensures GetDepCategory(DefaultConfig(), "Assets/ResModel/Character/" + stem + ".fbx") == Model
  {
    var c := DefaultConfig();
    var path := "Assets/ResModel/Character/" + stem + ".fbx";
    assert path[|path| - 1] == 'x';
    NoDefaultShaderSuffix(path);
    NoDefaultMaterialSuffix(path);
    NoDefaultTextureSuffix(path);
    assert EndsWith(path, DefaultPrefabSuffixes[2]);
    assert path == c.resDirModel + ("/Character/" + stem + ".fbx");
    StartsWithAppend(c.resDirModel, "/Character/" + stem + ".fbx", c.resDirModel);
  }

  // The examples below state their literal facts (paths, prefixes, names) in small
  // lemmas of their own: proved together with the rules, such facts about string
  // literals make the proofs much more expensive.

  lemma CharacterPath(stem: string)
    requires '/' !in stem && '.' !in stem
    ensures var path := PrefixRules(DefaultConfig())[1].root + "/" + stem + "." + "fbx";
      && path == "Assets/ResModel/Character/" + stem + ".fbx"
      && !IsShader(DefaultConfig(), path)
  {
    var path := PrefixRules(DefaultConfig())[1].root + "/" + stem + "." + "fbx";
    assert path == "Assets/ResModel/Character/" + stem + ".fbx";
    assert path[|path| - 1] == 'x';
    NoDefaultShaderSuffix(path);
  }

  lemma CharacterPrefix(stem: string)
    ensures PrefixRules(DefaultConfig())[1].prefix + Lower(stem) == "model_role_" + Lower(stem)
  {
  }

  /** A character model is bundled by the character prefix and its lower-cased file name. */
  lemma CharacterExample(stem: string)
    requires '/' !in stem && '.' !in stem
    ensures GetDefaultABName(DefaultConfig(), "Assets/ResModel/Character/" + stem + ".fbx") == "model_role_" + Lower(stem)
  {
    CharacterPath(stem);
    DefaultConfigIsNested();
    SubRootFileName(DefaultConfig(), 1, stem, "fbx");
    CharacterPrefix(stem);
  }

  lemma BigImagePath(stem: string)
    requires '/' !in stem && '.' !in stem
    ensures var path := DefaultConfig().resDirUiBigImage + "/" + stem + "." + "png";
      && path == "Assets/ResUI/big_image/" + stem + ".png"
      && !IsShader(DefaultConfig(), path)
  {
    var path := DefaultConfig().resDirUiBigImage + "/" + stem + "." + "png";
    assert path == "Assets/ResUI/big_image/" + stem + ".png";
    assert path[|path| - 1] == 'g';
    NoDefaultShaderSuffix(path);
  }

  lemma BigImagePrefix(stem: string)
    ensures DefaultConfig().abPrefixUiBigImage + Lower(stem) == "ui_big_image_" + Lower(stem)
  {
  }

  /** A big image is bundled by the big-image prefix and its lower-cased file name. */
  lemma BigImageExample(stem: string)
    requires '/' !in stem && '.' !in stem
    ensures GetDefaultABName(DefaultConfig(), "Assets/ResUI/big_image/" + stem + ".png") == "ui_big_image_" + Lower(stem)
  {
    BigImagePath(stem);
    DefaultConfigIsNested();
    BigImageFileName(DefaultConfig(), stem, "png");
    BigImagePrefix(stem);
  }

  lemma LoginIsNotBigImage(c: Config, file: string)
    requires c == DefaultConfig()
    ensures !StartsWith(c.resDirUi + "/" + "Login" + "/" + file, c.resDirUiBigImage)
  {
    var path := c.resDirUi + "/" + "Login" + "/" + file;
    assert path[13] == 'L';
  }

  lemma LoginPrefabIsNotShader(c: Config, file: string)
    requires c == DefaultConfig() && EndsWith(file, ".prefab")
    ensures !IsShader(c, c.resDirUi + "/" + "Login" + "/" + file)
  {
    var path := c.resDirUi + "/" + "Login" + "/" + file;
    assert path[|path| - 1] == file[|file| - 7..][6] == 'b';
    NoDefaultShaderSuffix(path);
  }

  lemma LoginName()
    ensures DefaultConfig().abPrefixUi + Lower("Login") == "ui_login"
  {
    assert Lower("Login") == "login";
  }

  /** Every prefab in the Login directory of the UI root is bundled as "ui_login". */
  lemma UIDirExample(file: string)
    requires EndsWith(file, ".prefab")
    ensures var c := DefaultConfig(); GetDefaultABName(c, c.resDirUi + "/" + "Login" + "/" + file) == "ui_login"
  {
    var c := DefaultConfig();
    LoginPrefabIsNotShader(c, file);
    DefaultConfigIsNested();
    LoginIsNotBigImage(c, file);
    UIDirFileName(c, "Login", file);
    LoginName();
  }

  /** A model dependency of exactly the limit (1 MiB) is not single; one byte more is. */
  lemma ThresholdExample(name: string, path: string, t: AssetsType)
    ensures !IsNeedSetSingleABName(DefaultConfig(), AssetsInfo(name, path, 1048576, Model, t))
    ensures IsNeedSetSingleABName(DefaultConfig(), AssetsInfo(name, path, 1048577, Model, t))
  {
  }

  // ---------------------------------------------------------------------------
  // Findings

  /** As written, the default texture list holds ".TAG", so an upper-case ".TGA" file is of type Other. */
  lemma UpperTgaIsNotTexture(path: string)
    requires EndsWith(path, ".TGA")
    ensures GetAssetType(DefaultConfig(), path) == AssetsType.Other
  {
    assert path[|path| - 4..][3] == 'A';
    NoDefaultShaderSuffix(path);
    NoDefaultMaterialSuffix(path);
    NoDefaultTextureSuffix(path);
    NoDefaultPrefabSuffix(path);
    NoDefaultAssetSuffix(path);
  }

  /** With ".TGA" in the list, the same files are textures. */
  lemma IntendedUpperTgaIsTexture(path: string)
    requires EndsWith(path, ".TGA")
    ensures GetAssetType(IntendedConfig(), path) == Texture
  {
    assert path[|path| - 4..][3] == 'A';
    NoDefaultShaderSuffix(path);
    NoDefaultMaterialSuffix(path);
    assert EndsWith(path, IntendedConfig().fileSuffixTexture[1]);
  }

  /** As written, a scene prefab above the material limit is named with the scene MATERIAL prefix. */
  lemma LargeScenePrefabGetsMaterialName(c: Config, fileName: string, fileSize: int)
    requires fileSize as real > c.abDepSingleSizeLimitMaterial
    ensures SceneDepPrefabABNameBySize(c, fileName, fileSize) == SceneDepMaterialABName(c, fileName)
    ensures SceneDepPrefabABNameBySize(DefaultConfig(), "Rock", 300000) == "scene_dep_mat_rock"
  {
  }

  /** The corrected rule names a large scene prefab with the scene prefab prefix. */
  lemma IntendedLargeScenePrefabGetsPrefabName(c: Config, fileName: string, fileSize: int)
    requires fileSize as real > c.abDepSingleSizeLimitMaterial
    ensures IntendedSceneDepPrefabABNameBySize(c, fileName, fileSize) == SceneDepPrefabABName(c, fileName)
    ensures IntendedSceneDepPrefabABNameBySize(DefaultConfig(), "Rock", 300000) == "scene_dep_prefab_rock"
  {
  }
}
