# Material cleaner, modelled in Dafny

This is a model of the Unity editor tool that removes orphaned shader
parameters from a material asset. When a shader is edited, a material can
keep values for parameters the shader no longer declares. The tool builds a
fresh material bound to the same shader. It copies the top-level attributes
and the value of each currently declared property onto it. It then writes
the fresh material over the original asset path through a temporary asset,
so that the asset keeps its GUID and every reference to it stays valid.

Three modules, one per concern:

- `unity_material.dfy` (module `UnityMaterial`) holds the Unity API the tool uses.
  It has the value types (colours, vectors, texture references), the
  `MaterialProperty` that shader reflection hands out, the flag bits, and the
  `Material` class. That class has the fields the tool sets and the setters it calls.
- `asset_store.dfy` (module `AssetStore`) is the asset database as a map from
  path to GUID and content. The `AssetDatabase` class has the three
  primitives the tool calls: `CreateAsset`, `ReplaceFile` and `DeleteAsset`.
  An invariant says that GUIDs are unique and minted from a counter.
- `material_cleaner.dfy` (module `MaterialCleaner`) holds the tool. The
  methods `SetPropertyToMaterial`, `DeleteUnusedProperties` and
  `MaterialCleanerMenu` work step by step on objects. They are proved
  against pure specification functions: `CopyProperty` for one property,
  `CopyAll` for the property loop, `Rebuilt` for the whole rebuilt material
  and `SwapIn` for the temporary-path swap. The lemmas state the properties
  of those functions.

Modelling choices:

- `DeleteUnusedProperties` runs its three steps in the source's order. The
  property loop (lines 80-84) is its own method, `CopyProperties`, and so is
  the temporary-path swap (lines 87-90), `ReplaceKeepingGuid`. This keeps each
  proof small.

- The texture flags are bits of Unity's `PropFlags` mask: `PerRendererData` = 2 and `NoScaleOffset` = 4.
  Each rule tests containment, `flags & F == F`, as the source does.
- `new Material(shader)` starts with no stored property values. Its other
  fields start with some values that the model does not pin down. The
  rebuild overwrites all of them.
- A texture slot that has never been written has the null texture, scale
  (1, 1) and offset (0, 0). `SetTexture` keeps the slot's scale and offset.
  `SetTextureScale` and `SetTextureOffset` keep the other two parts.
- `renderQueue` is the stored value. If it is already `-1`, the rebuild
  stores `-1` whether or not it is compared against the resolved queue, so
  the outcome matches Unity's getter.
- `AssetDatabase.CreateAsset` at an occupied path replaces that asset with a
  new one under a new GUID. `FileUtil.ReplaceFile` keeps the GUID recorded
  for the destination. It mints a GUID only when the destination is missing,
  and does nothing when the source is missing.
- If an unrelated asset already sits at `path + "_temp"`, the swap destroys
  it. `SwapIn` states this: the temporary path is empty afterwards,
  whatever it held before.

What the code does not do:

- The code returns nothing and has no error path. There is no per-item
  success or failure result.
- The code does no cleanup when `ReplaceFile` fails.
- A declaration whose type falls outside the five cases is not written
  (the `switch` has no default). The model's type enum has exactly the five cases.

## Model

| member | source | states |
|---|---|---|
| `MaterialCleaner.CopyProperty` | Assets/Editor/MaterialCleaner.cs:98-130 | Copying one property adds exactly its name to the map and leaves every other entry unchanged. Colour, float, range and vector values are copied. A texture gets its reference unless it is per-renderer data. It gets the declared scale and offset unless it is marked no-scale-offset, in which case it keeps the slot's existing ones |
| `MaterialCleaner.SetPropertyToMaterial` | Assets/Editor/MaterialCleaner.cs:98-130 | The setter calls change only the target's property map, and the new map is `CopyProperty` of the old one |
| `MaterialCleaner.TextureCopyRules` | Assets/Editor/MaterialCleaner.cs:111-124 | A per-renderer-data texture is written as null, otherwise the source texture is written. A no-scale-offset texture gets no scale or offset write, otherwise scale = (x, y) and offset = (z, w) of `textureScaleAndOffset` |
| `MaterialCleaner.RangeCopiedAsFloat` | Assets/Editor/MaterialCleaner.cs:106-109 | A Range property is written exactly as a Float property with the same fields |
| `MaterialCleaner.OtherFlagsIgnored` | Assets/Editor/MaterialCleaner.cs:114-119 | Adding flags other than PerRendererData and NoScaleOffset does not change what is written |
| `MaterialCleaner.CopyProperties` | Assets/Editor/MaterialCleaner.cs:80-84 | The loop calls the copier once per declared property, in order. Only the property map changes, and it ends equal to `CopyAll` of the old map and the declarations |
| `MaterialCleaner.CopyAll` | Assets/Editor/MaterialCleaner.cs:80-84 | After the loop over the declared properties, the map's keys are the old keys plus exactly the declared names |
| `MaterialCleaner.CopyAllFidelity` | Assets/Editor/MaterialCleaner.cs:80-84 | With unique declared names, each declared name that was not already present ends up holding the value copied from its declaration |
| `MaterialCleaner.NormalizedRenderQueue` | Assets/Editor/MaterialCleaner.cs:72 | The stored queue is either the `-1` sentinel or the source's queue. It is the sentinel when the source's queue equals the shader's, and the source's queue otherwise |
| `MaterialCleaner.Rebuilt` | Assets/Editor/MaterialCleaner.cs:68-84 | The rebuilt material has the same shader, name, instancing, double-sided GI, GI flags, hide flags and keywords as the source. Its render queue follows the normalisation rule. Its property names are exactly the declared names: no orphan survives and no declared name is missing |
| `MaterialCleaner.RebuiltFidelity` | Assets/Editor/MaterialCleaner.cs:80-84 | Every declared property of the rebuilt material holds the value copied from its declaration |
| `MaterialCleaner.CleanTwiceKeepsNames` | Assets/Editor/MaterialCleaner.cs:68-84 | Rebuilding a rebuilt material against the same declared names leaves its set of property names unchanged |
| `MaterialCleaner.ScenarioOrphanDropped` | Assets/Editor/MaterialCleaner.cs:80-84 | With `_Color`, an orphaned `_OldTint` and `_MainTex` on the source and only `_Color` and `_MainTex` declared, the rebuilt map is exactly `_Color` and `_MainTex` with their values |
| `MaterialCleaner.ScenarioPerRendererData` | Assets/Editor/MaterialCleaner.cs:113-118 | A `_MainTex` declared as per-renderer data is rebuilt with a null texture |
| `MaterialCleaner.ScenarioNoScaleOffset` | Assets/Editor/MaterialCleaner.cs:119-123 | A `_MainTex` declared without tiling keeps its texture, and its scale and offset stay at the defaults |
| `MaterialCleaner.TempPath` | Assets/Editor/MaterialCleaner.cs:87 | The temporary path extends the asset path, so it differs from it |
| `MaterialCleaner.SwapIn` | Assets/Editor/MaterialCleaner.cs:87-90 | After create, replace and delete, `path` holds the new content under its old GUID and nothing exists at the temporary path. Every other path keeps its entry, and GUIDs stay unique |
| `MaterialCleaner.ReplaceKeepingGuid` | Assets/Editor/MaterialCleaner.cs:87-90 | The three storage calls leave the database equal to `SwapIn` of the old one |
| `MaterialCleaner.DeleteUnusedProperties` | Assets/Editor/MaterialCleaner.cs:65-91 | The database afterwards is the old one with `Rebuilt(mat, properties)` swapped in at `path` |
| `MaterialCleaner.CleanIfMaterial` | Assets/Editor/MaterialCleaner.cs:35-43 | A path that does not hold a material is skipped and the store is unchanged. Otherwise the store becomes the old one with `Rebuilt` of the stored material, against its declared properties, swapped in at the path. Only the path and its temporary path change, and GUIDs are kept |
| `MaterialCleaner.MaterialCleanerMenu` | Assets/Editor/MaterialCleaner.cs:24-49 | Over a selection, no path is added, and every path that is not a temporary path of the selection keeps its GUID. Unselected paths and non-material assets that are still present afterwards are unchanged, and materials that remain stay materials. The contract says nothing about temporary paths; `CleanIfMaterial` removes the temporary path of each material it cleans. With nothing selected the store is unchanged |
| `MaterialCleaner.IsEnabledMaterialCleanerMenu` | Assets/Editor/MaterialCleaner.cs:50-58 | A definition, not a proved property: the menu entry is enabled exactly when the selection is not empty. `MaterialCleanerMenu` uses it: with the entry disabled the store is unchanged |
| `MaterialCleaner.CopiedValue` | Assets/Editor/MaterialCleaner.cs:100-128 | The value kind follows the property type: a colour for Color, a number for Float and Range, a vector for Vector and a texture slot for Texture. The texture is null exactly when the property is per-renderer data or has no texture. Without NoScaleOffset the scale and offset are (x, y) and (z, w) of `textureScaleAndOffset` |
| `UnityMaterial.Material.Load` | Assets/Editor/MaterialCleaner.cs:37 | Loading a material asset yields an object whose content equals the stored content |
| `AssetStore.AssetDatabase.CreateAsset` | Assets/Editor/MaterialCleaner.cs:88 | Stores the content at the path under a newly minted GUID |
| `AssetStore.AssetDatabase.ReplaceFile` | Assets/Editor/MaterialCleaner.cs:89 | Copies the content of the source path over the destination and keeps the destination's GUID |
| `AssetStore.AssetDatabase.DeleteAsset` | Assets/Editor/MaterialCleaner.cs:90 | Removes the path |
| `UnityMaterial.Material.constructor` | Assets/Editor/MaterialCleaner.cs:68 | A new material is bound to the given shader and holds no property values |
| `UnityMaterial.Material.SetColor` | Assets/Editor/MaterialCleaner.cs:103 | Stores the colour under the name and changes nothing else |
| `UnityMaterial.Material.SetFloat` | Assets/Editor/MaterialCleaner.cs:108 | Stores the number under the name and changes nothing else |
| `UnityMaterial.Material.SetTexture` | Assets/Editor/MaterialCleaner.cs:118 | Replaces the slot's texture and keeps its scale and offset |
| `UnityMaterial.Material.SetTextureScale` | Assets/Editor/MaterialCleaner.cs:121 | Replaces the slot's scale and keeps the rest |
| `UnityMaterial.Material.SetTextureOffset` | Assets/Editor/MaterialCleaner.cs:122 | Replaces the slot's offset and keeps the rest |
| `UnityMaterial.Material.SetVector` | Assets/Editor/MaterialCleaner.cs:127 | Stores the vector under the name and changes nothing else |

## Left out

- Progress bars (lines 42, 46, 48) are user-interface side effects with nothing to prove.
- `FileUtil.ReplaceFile` (line 89) copies the file on disk, and Unity's asset database picks the copy up only at `AssetDatabase.Refresh` after the loop (line 47). The model applies the copy to the store at once and does not model that deferred re-import.
- The GUID-to-path lookup for the selection (lines 32-36) is the asset database's job. The menu takes the selected paths directly, and a missing selection is the empty one.
- Shader reflection (`MaterialEditor.GetMaterialProperties`, line 80) is not modelled. The declared properties and their current values are an input: the `properties` parameter of `DeleteUnusedProperties`, and the `inspect` function of the menu.
- Unity keeps colours, floats and textures in separate per-kind tables. The model keeps one map from name to tagged value. Declared names are unique, so nothing the tool does tells the two apart.
- Colour, vector, float, scale and offset contents are reals that are only copied. Floating-point representation is not modelled.
- The rebuild drops any material state other than the seven copied attributes and the declared properties, for example override tags and disabled shader passes. `new Material(shader)` (line 68) starts without them and lines 71-77 do not copy them. `MaterialData` does not hold this state, so `Rebuilt` states equality only for what it holds.
- How Unity resolves a stored `-1` render queue when it is read back is not modelled. No claim is made that two cleans give the same render queue. The claim is made only for the set of property names.
- Meta files, import settings and failures inside `CreateAsset`, `ReplaceFile` and `DeleteAsset` are not modelled. The code does not handle them either.
- MaterialCleanerMenu: does not state the final content of each cleaned path. `DeleteUnusedProperties` states it for one call. Over a selection that names a path twice, or names a path and its temporary path, the content depends on the order of cleaning.
