/**
 * The material cleaner: rebuilds a material so that it holds values only for
 * the properties its shader declares now, and swaps the rebuilt material
 * into the original asset path so that the asset keeps its GUID.
 *
 * The pure functions below are the specification: `CopyProperty` is what
 * copying one property does to a property map, `CopyAll` folds it over the
 * declared properties, `Rebuilt` is the whole rebuilt material and `SwapIn`
 * is the three-step write into the asset store. The methods
 * `SetPropertyToMaterial`, `DeleteUnusedProperties` and `MaterialCleanerMenu`
 * do the same work step by step on objects and are proved against them.
 */
module MaterialCleaner {
  import opened UnityMaterial
  import opened AssetStore

  // ---------------------------------------------------------------------
  // Copying one property

  /** The texture written for a texture property: none for per-renderer data. */
  function TextureToWrite(p: MaterialProperty): Option<TextureRef> {
    if HasFlag(p.flags, PerRendererData) then None else p.textureValue
  }

  /** Scale and offset packed in `textureScaleAndOffset` as (x, y) and (z, w). */
  function ScaleOf(p: MaterialProperty): Vector2 {
    Vector2(p.textureScaleAndOffset.x, p.textureScaleAndOffset.y)
  }

  function OffsetOf(p: MaterialProperty): Vector2 {
    Vector2(p.textureScaleAndOffset.z, p.textureScaleAndOffset.w)
  }

  /**
   * Reference definition of the value a declared property ends up with on a
   * material that held nothing under its name: colours, numbers and vectors
   * are copied, a range is stored like a float, a texture keeps its
   * reference unless it is per-renderer data, and its scale and offset
   * unless the shader marks it as not tiling.
   */
  function CopiedValue(p: MaterialProperty): (v: PropertyValue)
    ensures v.ColorValue? <==> p.propType == Color
    ensures v.FloatValue? <==> p.propType == Float || p.propType == Range
    ensures v.VectorValue? <==> p.propType == Vector
    ensures v.TextureValue? ==> (v.texture == None <==> HasFlag(p.flags, PerRendererData) || p.textureValue == None)
    ensures v.TextureValue? && !HasFlag(p.flags, NoScaleOffset) ==> v.scale == ScaleOf(p) && v.offset == OffsetOf(p)
  {
    match p.propType
    case Color => ColorValue(p.colorValue)
    case Float => FloatValue(p.floatValue)
    case Range => FloatValue(p.floatValue)
    case Vector => VectorValue(p.vectorValue)
    case Texture =>
      if HasFlag(p.flags, NoScaleOffset) then TextureValue(TextureToWrite(p), DefaultScale, DefaultOffset)
      else TextureValue(TextureToWrite(p), ScaleOf(p), OffsetOf(p))
  }

  /**
   * The property map after `SetPropertyToMaterial` wrote `p` onto it, as
   * the sequence of setter calls it makes. Only the entry named `p.name`
   * changes; a texture declared without tiling keeps the target slot's
   * scale and offset.
   */
  function CopyProperty(props: PropertyMap, p: MaterialProperty): (r: PropertyMap)
    ensures r.Keys == props.Keys + {p.name}
    ensures forall k :: k in props && k != p.name ==> r[k] == props[k]
    ensures p.name !in props ==> r[p.name] == CopiedValue(p)
    ensures p.propType != Texture ==> r[p.name] == CopiedValue(p)
    ensures p.propType == Texture ==>
      var slot := TextureSlot(props, p.name);
      r[p.name] == if HasFlag(p.flags, NoScaleOffset)
                   then TextureValue(TextureToWrite(p), slot.scale, slot.offset)
                   else CopiedValue(p)
  {
    match p.propType
    case Color => props[p.name := ColorValue(p.colorValue)]
    case Float => props[p.name := FloatValue(p.floatValue)]
    case Range => props[p.name := FloatValue(p.floatValue)]
    case Vector => props[p.name := VectorValue(p.vectorValue)]
    case Texture =>
      var withTexture := WithTexture(props, p.name, TextureToWrite(p));
      if HasFlag(p.flags, NoScaleOffset) then withTexture
      else WithTextureOffset(WithTextureScale(withTexture, p.name, ScaleOf(p)), p.name, OffsetOf(p))
  }

  /** Writes one declared property onto `mat`, dispatching on its type. */
  method SetPropertyToMaterial(mat: Material, property: MaterialProperty)
    modifies mat`properties
    ensures mat.properties == CopyProperty(old(mat.properties), property)
  {
    match property.propType
    case Color =>
      mat.SetColor(property.name, property.colorValue);
    case Float =>
      mat.SetFloat(property.name, property.floatValue);
    case Range =>
      mat.SetFloat(property.name, property.floatValue);
    case Texture =>
      var tex: Option<TextureRef> := None;
      if !HasFlag(property.flags, PerRendererData) {
        tex := property.textureValue;
      }
      mat.SetTexture(property.name, tex);
      if !HasFlag(property.flags, NoScaleOffset) {
        mat.SetTextureScale(property.name, ScaleOf(property));
        mat.SetTextureOffset(property.name, OffsetOf(property));
      }
    case Vector =>
      mat.SetVector(property.name, property.vectorValue);
  }

  // ---------------------------------------------------------------------
  // Rebuilding a material

  function Names(ps: seq<MaterialProperty>): set<string> {
    set p | p in ps :: p.name
  }

  /** Declared names are unique, as a shader's property declarations are. */
  predicate UniqueNames(ps: seq<MaterialProperty>) {
    forall i, j :: 0 <= i < j < |ps| ==> ps[i].name != ps[j].name
  }

  lemma NamesOfPrefix(ps: seq<MaterialProperty>)
    requires ps != []
    ensures Names(ps) == Names(ps[..|ps| - 1]) + {ps[|ps| - 1].name}
  {
    assert ps == ps[..|ps| - 1] + [ps[|ps| - 1]];
  }

  /**
   * The property map after copying the declared properties `ps`, in order,
   * onto `props`: its keys are the old ones plus exactly the declared names.
   */
  function CopyAll(props: PropertyMap, ps: seq<MaterialProperty>): (r: PropertyMap)
    ensures r.Keys == props.Keys + Names(ps)
    decreases |ps|
  {
    if ps == [] then props
    else
      NamesOfPrefix(ps);
      CopyProperty(CopyAll(props, ps[..|ps| - 1]), ps[|ps| - 1])
  }

  /**
   * The render queue the rebuilt material stores: the "use the shader's
   * queue" sentinel when the source's queue is the shader's own, otherwise
   * the source's queue.
   */
  function NormalizedRenderQueue(queue: int, shaderQueue: int): (r: int)
    ensures r == UseShaderDefault || r == queue
    ensures queue == shaderQueue ==> r == UseShaderDefault
    ensures queue != shaderQueue ==> r == queue
  {
    if shaderQueue == queue then UseShaderDefault else queue
  }

  /**
   * The material `DeleteUnusedProperties` builds from `src`, given the
   * properties the inspector declares for it: same shader and top-level
   * attributes, normalised render queue, and a value for every declared
   * name and for nothing else.
   */
  function Rebuilt(src: MaterialData, ps: seq<MaterialProperty>): (r: MaterialData)
    ensures r.shader == src.shader && r.name == src.name
    ensures r.enableInstancing == src.enableInstancing && r.doubleSidedGI == src.doubleSidedGI
    ensures r.globalIlluminationFlags == src.globalIlluminationFlags && r.hideFlags == src.hideFlags
    ensures r.shaderKeywords == src.shaderKeywords
    ensures r.renderQueue == UseShaderDefault || r.renderQueue == src.renderQueue
    ensures src.renderQueue == src.shader.renderQueue ==> r.renderQueue == UseShaderDefault
    ensures src.renderQueue != src.shader.renderQueue ==> r.renderQueue == src.renderQueue
    ensures r.properties.Keys == Names(ps)
  {
    MaterialData(
      src.shader,
      src.name,
      NormalizedRenderQueue(src.renderQueue, src.shader.renderQueue),
      src.enableInstancing,
      src.doubleSidedGI,
      src.globalIlluminationFlags,
      src.hideFlags,
      src.shaderKeywords,
      CopyAll(map[], ps))
  }

  // ---------------------------------------------------------------------
  // Properties of the copy rules and of the rebuilt material

  /** A texture's reference follows the per-renderer-data rule, its scale and offset the no-tiling rule. */
  lemma TextureCopyRules(props: PropertyMap, p: MaterialProperty)
    requires p.propType == Texture
    ensures var v := CopyProperty(props, p)[p.name];
      && v.TextureValue?
      && (HasFlag(p.flags, PerRendererData) ==> v.texture == None)
      && (!HasFlag(p.flags, PerRendererData) ==> v.texture == p.textureValue)
      && (HasFlag(p.flags, NoScaleOffset) ==>
            v.scale == TextureSlot(props, p.name).scale && v.offset == TextureSlot(props, p.name).offset)
      && (!HasFlag(p.flags, NoScaleOffset) ==>
            v.scale == Vector2(p.textureScaleAndOffset.x, p.textureScaleAndOffset.y)
            && v.offset == Vector2(p.textureScaleAndOffset.z, p.textureScaleAndOffset.w))
  {
  }

  /** A range property is written exactly as a float property with the same fields. */
  lemma RangeCopiedAsFloat(props: PropertyMap, p: MaterialProperty)
    requires p.propType == Range
    ensures CopyProperty(props, p) == CopyProperty(props, p.(propType := Float))
  {
  }

  /** The flag rules test containment of their own bit only: other flags change nothing. */
  lemma OtherFlagsIgnored(props: PropertyMap, p: MaterialProperty, extra: PropFlags)
    requires extra & (PerRendererData | NoScaleOffset) == 0
    ensures CopyProperty(props, p.(flags := p.flags | extra)) == CopyProperty(props, p)
  {
    var q := p.(flags := p.flags | extra);
    assert HasFlag(q.flags, PerRendererData) == HasFlag(p.flags, PerRendererData);
    assert HasFlag(q.flags, NoScaleOffset) == HasFlag(p.flags, NoScaleOffset);
    assert TextureToWrite(q) == TextureToWrite(p);
  }

  /**
   * With unique declared names, each declared name not already present ends
   * up holding its reference value, whatever was copied before or after it.
   */
  lemma {:induction false} CopyAllFidelity(props: PropertyMap, ps: seq<MaterialProperty>, i: nat)
    requires UniqueNames(ps) && i < |ps| && ps[i].name !in props
    ensures ps[i].name in CopyAll(props, ps)
    ensures CopyAll(props, ps)[ps[i].name] == CopiedValue(ps[i])
    decreases |ps|
  {
    var last := |ps| - 1;
    var init, p := ps[..last], ps[last];
    var before := CopyAll(props, init);
    assert CopyAll(props, ps) == CopyProperty(before, p);
    if i == last {
      LastNameIsNew(ps);
      assert p.name !in before;
    } else {
      UniquePrefix(ps, i);
      CopyAllFidelity(props, init, i);
    }
  }

  lemma UniquePrefix(ps: seq<MaterialProperty>, i: nat)
    requires UniqueNames(ps) && i < |ps| - 1
    ensures UniqueNames(ps[..|ps| - 1])
    ensures ps[..|ps| - 1][i] == ps[i] && ps[i].name != ps[|ps| - 1].name
  {
  }

  lemma LastNameIsNew(ps: seq<MaterialProperty>)
    requires UniqueNames(ps) && ps != []
    ensures ps[|ps| - 1].name !in Names(ps[..|ps| - 1])
  {
    var init := ps[..|ps| - 1];
    forall p | p in init ensures p.name != ps[|ps| - 1].name {
      var j :| 0 <= j < |init| && init[j] == p;
    }
  }

  /**
   * Per-type fidelity of the rebuild: every declared property holds the value
   * copied from its declaration.
   */
  lemma RebuiltFidelity(src: MaterialData, ps: seq<MaterialProperty>, i: nat)
    requires UniqueNames(ps) && i < |ps|
    ensures ps[i].name in Rebuilt(src, ps).properties
    ensures Rebuilt(src, ps).properties[ps[i].name] == CopiedValue(ps[i])
  {
    CopyAllFidelity(map[], ps, i);
  }

  /**
   * Cleaning a cleaned material against the same declared names leaves its
   * set of property names as it was.
   */
  lemma CleanTwiceKeepsNames(src: MaterialData, ps: seq<MaterialProperty>, again: seq<MaterialProperty>)
    requires Names(again) == Names(ps)
    ensures Rebuilt(Rebuilt(src, ps), again).properties.Keys == Rebuilt(src, ps).properties.Keys
  {
  }

  const NoVector := Vector4(0.0, 0.0, 0.0, 0.0)

  /** The declarations of a shader with a colour `_Color` and a texture `_MainTex` carrying `flags`. */
  function ScenarioDeclarations(red: Rgba, tex: TextureRef, flags: PropFlags): seq<MaterialProperty> {
    [ MaterialProperty("_Color", Color, 0, red, 0.0, None, NoVector, NoVector),
      MaterialProperty("_MainTex", Texture, flags, red, 0.0, Some(tex), Vector4(2.0, 2.0, 0.0, 0.0), NoVector) ]
  }

  /**
   * A source holding an orphaned `_OldTint`: `_Color` and `_MainTex` are
   * copied and `_OldTint` is dropped. The source's map plays no part in the
   * outcome: `Rebuilt` writes only declared names onto an empty map, so
   * `_OldTint` disappears because the declarations leave it out.
   */
  lemma ScenarioOrphanDropped(src: MaterialData, red: Rgba, blue: Rgba, tex: TextureRef)
    requires src.properties == map["_Color" := ColorValue(red), "_OldTint" := ColorValue(blue),
                                   "_MainTex" := TextureValue(Some(tex), Vector2(2.0, 2.0), Vector2(0.0, 0.0))]
    ensures Rebuilt(src, ScenarioDeclarations(red, tex, 0)).properties
         == map["_Color" := ColorValue(red), "_MainTex" := TextureValue(Some(tex), Vector2(2.0, 2.0), Vector2(0.0, 0.0))]
  {
    var ps := ScenarioDeclarations(red, tex, 0);
    assert ps[0].name != ps[1].name by { assert ps[0].name[1] != ps[1].name[1]; }
    RebuiltFidelity(src, ps, 0);
    RebuiltFidelity(src, ps, 1);
    assert Names(ps) == {"_Color", "_MainTex"};
  }

  /** `_MainTex` declared as per-renderer data: the texture is dropped, its tiling kept. */
  lemma ScenarioPerRendererData(src: MaterialData, red: Rgba, tex: TextureRef)
    ensures Rebuilt(src, ScenarioDeclarations(red, tex, PerRendererData)).properties["_MainTex"]
         == TextureValue(None, Vector2(2.0, 2.0), Vector2(0.0, 0.0))
  {
    var ps := ScenarioDeclarations(red, tex, PerRendererData);
    assert ps[0].name != ps[1].name by { assert ps[0].name[1] != ps[1].name[1]; }
    RebuiltFidelity(src, ps, 1);
  }

  /** `_MainTex` declared without tiling: the texture is kept, scale and offset stay at their defaults. */
  lemma ScenarioNoScaleOffset(src: MaterialData, red: Rgba, tex: TextureRef)
    ensures Rebuilt(src, ScenarioDeclarations(red, tex, NoScaleOffset)).properties["_MainTex"]
         == TextureValue(Some(tex), DefaultScale, DefaultOffset)
  {
    var ps := ScenarioDeclarations(red, tex, NoScaleOffset);
    assert ps[0].name != ps[1].name by { assert ps[0].name[1] != ps[1].name[1]; }
    RebuiltFidelity(src, ps, 1);
  }

  // ---------------------------------------------------------------------
  // Swapping the rebuilt material into place

  /** The path the rebuilt material is first created at. */
  function TempPath(path: string): (t: string)
    ensures |t| > |path| && t[..|path|] == path
  {
    path + "_temp"
  }

  /**
   * The store after creating `content` at the temporary path, copying it
   * over `path` and deleting the temporary asset: `path` holds the new
   * content under its old GUID, the temporary path is empty (whatever was
   * there before is gone too) and every other path is untouched.
   */
  function SwapIn(s: Store, path: string, content: Content, next: Guid): (r: Store)
    ensures r.Keys == s.Keys - {TempPath(path)} + {path}
    ensures r[path].content == content
    ensures path in s ==> r[path].guid == s[path].guid
    ensures forall q :: q in r && q != path ==> r[q] == s[q]
    ensures IdentitiesValid(s, next) ==> IdentitiesValid(r, next + 2)
  {
    var temp := TempPath(path);
    Deleted(Replaced(Created(s, temp, content, next), temp, path, next + 1), temp)
  }

  /**
   * Rebuilds `mat`, which is stored at `path`, from the properties its
   * shader declares, and writes the result over `path` keeping its GUID.
   */
  method DeleteUnusedProperties(mat: Material, path: string, properties: seq<MaterialProperty>, db: AssetDatabase)
    requires db.Valid()
    modifies db
    ensures db.Valid()
    ensures db.assets == SwapIn(old(db.assets), path, MaterialAsset(Rebuilt(mat.Data(), properties)), old(db.nextGuid))
  {
    ghost var src := mat.Data();
    var newMat: Material := new Material(mat.shader);

    newMat.name := mat.name;
    newMat.renderQueue := NormalizedRenderQueue(mat.renderQueue, mat.shader.renderQueue);
    newMat.enableInstancing := mat.enableInstancing;
    newMat.doubleSidedGI := mat.doubleSidedGI;
    newMat.globalIlluminationFlags := mat.globalIlluminationFlags;
    newMat.hideFlags := mat.hideFlags;
    newMat.shaderKeywords := mat.shaderKeywords;

    CopyProperties(newMat, properties);
    assert newMat.Data() == Rebuilt(src, properties);
    ReplaceKeepingGuid(db, MaterialAsset(newMat.Data()), path);
  }

  /** Writes every declared property onto `mat`, in declaration order. */
  method CopyProperties(mat: Material, properties: seq<MaterialProperty>)
    modifies mat`properties
    ensures mat.properties == CopyAll(old(mat.properties), properties)
  {
    for pIdx := 0 to |properties|
      invariant mat.properties == CopyAll(old(mat.properties), properties[..pIdx])
    {
      assert properties[..pIdx + 1][..pIdx] == properties[..pIdx];
      SetPropertyToMaterial(mat, properties[pIdx]);
    }
    assert properties[..|properties|] == properties;
  }

  /** Writes `content` over `path` through a temporary asset, keeping the GUID of `path`. */
  method ReplaceKeepingGuid(db: AssetDatabase, content: Content, path: string)
    requires db.Valid()
    modifies db
    ensures db.Valid()
    ensures db.assets == SwapIn(old(db.assets), path, content, old(db.nextGuid))
  {
    var tempPath := TempPath(path);
    db.CreateAsset(content, tempPath);
    db.ReplaceFile(tempPath, path);
    db.DeleteAsset(tempPath);
  }

  // ---------------------------------------------------------------------
  // The menu command over a selection

  /** The menu entry is enabled only when something is selected (no selection is the empty sequence). */
  function IsEnabledMaterialCleanerMenu(selection: seq<string>): (enabled: bool)
    ensures enabled <==> selection != []
  {
    |selection| != 0
  }

  function TempPaths(paths: seq<string>): set<string> {
    set p | p in paths :: TempPath(p)
  }

  /**
   * Cleans every selected path that holds a material, skipping the rest.
   * `inspect` stands for the shader reflection that lists a material's
   * declared properties with their current values.
   */
  method MaterialCleanerMenu(db: AssetDatabase, selection: seq<string>, inspect: MaterialData -> seq<MaterialProperty>)
    requires db.Valid()
    modifies db
    ensures db.Valid()
    ensures db.assets.Keys <= old(db.assets).Keys
    ensures forall q :: q in old(db.assets) && q !in TempPaths(selection) ==>
              q in db.assets && db.assets[q].guid == old(db.assets)[q].guid
    ensures forall q :: q in db.assets && q !in selection ==> db.assets[q] == old(db.assets)[q]
    ensures forall q :: q in db.assets && !old(db.assets)[q].content.MaterialAsset? ==> db.assets[q] == old(db.assets)[q]
    ensures forall q :: q in db.assets && old(db.assets)[q].content.MaterialAsset? ==> db.assets[q].content.MaterialAsset?
    ensures !IsEnabledMaterialCleanerMenu(selection) ==> db.assets == old(db.assets)
  {
    if !IsEnabledMaterialCleanerMenu(selection) {
      return;
    }
    for i := 0 to |selection|
      invariant db.Valid()
      invariant db.assets.Keys <= old(db.assets).Keys
      invariant forall q :: q in old(db.assets) && q !in TempPaths(selection[..i]) ==>
                  q in db.assets && db.assets[q].guid == old(db.assets)[q].guid
      invariant forall q :: q in db.assets && q !in selection[..i] ==> db.assets[q] == old(db.assets)[q]
      invariant forall q :: q in db.assets && !old(db.assets)[q].content.MaterialAsset? ==> db.assets[q] == old(db.assets)[q]
      invariant forall q :: q in db.assets && old(db.assets)[q].content.MaterialAsset? ==> db.assets[q].content.MaterialAsset?
    {
      assert selection[..i + 1] == selection[..i] + [selection[i]];
      assert TempPaths(selection[..i + 1]) == TempPaths(selection[..i]) + {TempPath(selection[i])};
      CleanIfMaterial(db, selection[i], inspect);
    }
    assert selection[..|selection|] == selection;
  }

  /** One iteration of the menu command: loads `path` and cleans it if it holds a material. */
  method CleanIfMaterial(db: AssetDatabase, path: string, inspect: MaterialData -> seq<MaterialProperty>)
    requires db.Valid()
    modifies db
    ensures db.Valid()
    ensures db.assets.Keys <= old(db.assets).Keys
    ensures forall q :: q in old(db.assets) && q != TempPath(path) ==>
              q in db.assets && db.assets[q].guid == old(db.assets)[q].guid
    ensures forall q :: q in db.assets && q != path ==> db.assets[q] == old(db.assets)[q]
    ensures forall q :: q in db.assets && !old(db.assets)[q].content.MaterialAsset? ==> db.assets[q] == old(db.assets)[q]
    ensures forall q :: q in db.assets && old(db.assets)[q].content.MaterialAsset? ==> db.assets[q].content.MaterialAsset?
    ensures !(path in old(db.assets) && old(db.assets)[path].content.MaterialAsset?) ==> db.assets == old(db.assets)
    ensures path in old(db.assets) && old(db.assets)[path].content.MaterialAsset? ==>
              var data := old(db.assets)[path].content.data;
              db.assets == SwapIn(old(db.assets), path, MaterialAsset(Rebuilt(data, inspect(data))), old(db.nextGuid))
  {
    if path in db.assets && db.assets[path].content.MaterialAsset? {
      var data := db.assets[path].content.data;
      var mat := new Material.Load(data);
      DeleteUnusedProperties(mat, path, inspect(data), db);
    }
  }
}
