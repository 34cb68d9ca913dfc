/**
 * The parts of Unity's material API that the material cleaner touches:
 * the value types it copies, the shader property description handed out by
 * the material inspector, and the Material object whose setters it calls.
 *
 * Colours, vectors, scale and offset are floating-point payloads that the
 * cleaner only copies, never computes on; they are modelled as opaque
 * records of reals.
 */
module UnityMaterial {

  datatype Option<T> = None | Some(value: T)

  datatype Rgba = Rgba(r: real, g: real, b: real, a: real)
  datatype Vector2 = Vector2(x: real, y: real)
  datatype Vector4 = Vector4(x: real, y: real, z: real, w: real)

  /** A texture asset, referred to by identity; `None` is the null texture. */
  datatype TextureRef = TextureRef(id: nat)

  /** A shader program; only its authored default render queue is read. */
  datatype Shader = Shader(name: string, renderQueue: int)

  /** The kinds of shader property the cleaner knows about. */
  datatype PropType = Color | Float | Range | Texture | Vector

  /** Bits of Unity's property flag mask (MaterialProperty.PropFlags). */
  type PropFlags = bv32
  const PerRendererData: PropFlags := 2
  const NoScaleOffset: PropFlags := 4

  /** Bitmask containment: every bit of `flag` is set in `flags`. */
  predicate HasFlag(flags: PropFlags, flag: PropFlags) {
    flags & flag == flag
  }

  /**
   * One property declared by the material's shader, as the inspector returns
   * it: name, type and flags, plus the material's current value for it in
   * every field (only the one matching `propType` is meaningful).
   */
  datatype MaterialProperty = MaterialProperty(
    name: string,
    propType: PropType,
    flags: PropFlags,
    colorValue: Rgba,
    floatValue: real,
    textureValue: Option<TextureRef>,
    textureScaleAndOffset: Vector4,
    vectorValue: Vector4)

  /** A value stored on a material under a property name. */
  datatype PropertyValue =
    | ColorValue(color: Rgba)
    | FloatValue(number: real)
    | TextureValue(texture: Option<TextureRef>, scale: Vector2, offset: Vector2)
    | VectorValue(vector: Vector4)

  type PropertyMap = map<string, PropertyValue>

  /**
   * The content of a material that the cleaner reads or writes. Other
   * material state, such as override tags and disabled shader passes, is
   * not part of this model.
   */
  datatype MaterialData = MaterialData(
    shader: Shader,
    name: string,
    renderQueue: int,
    enableInstancing: bool,
    doubleSidedGI: bool,
    globalIlluminationFlags: bv32,
    hideFlags: bv32,
    shaderKeywords: seq<string>,
    properties: PropertyMap)

  /** The render queue value that means "use the shader's own queue". */
  const UseShaderDefault: int := -1

  const DefaultScale: Vector2 := Vector2(1.0, 1.0)
  const DefaultOffset: Vector2 := Vector2(0.0, 0.0)

  /** The texture slot stored under `name`, or an untouched default slot. */
  function TextureSlot(props: PropertyMap, name: string): (slot: PropertyValue)
    ensures slot.TextureValue?
    ensures name !in props ==> slot == TextureValue(None, DefaultScale, DefaultOffset)
  {
    if name in props && props[name].TextureValue? then props[name]
    else TextureValue(None, DefaultScale, DefaultOffset)
  }

  /** Material.SetTexture: replaces the texture, keeps the slot's scale and offset. */
  function WithTexture(props: PropertyMap, name: string, tex: Option<TextureRef>): PropertyMap {
    var slot := TextureSlot(props, name);
    props[name := TextureValue(tex, slot.scale, slot.offset)]
  }

  /** Material.SetTextureScale: replaces the scale, keeps texture and offset. */
  function WithTextureScale(props: PropertyMap, name: string, scale: Vector2): PropertyMap {
    var slot := TextureSlot(props, name);
    props[name := TextureValue(slot.texture, scale, slot.offset)]
  }

  /** Material.SetTextureOffset: replaces the offset, keeps texture and scale. */
  function WithTextureOffset(props: PropertyMap, name: string, offset: Vector2): PropertyMap {
    var slot := TextureSlot(props, name);
    props[name := TextureValue(slot.texture, slot.scale, offset)]
  }

  /** A material object; its setters update it in place. */
  class Material {
    var shader: Shader
    var name: string
    var renderQueue: int
    var enableInstancing: bool
    var doubleSidedGI: bool
    var globalIlluminationFlags: bv32
    var hideFlags: bv32
    var shaderKeywords: seq<string>
    var properties: PropertyMap

    function Data(): MaterialData
      reads this
    {
      MaterialData(shader, name, renderQueue, enableInstancing, doubleSidedGI,
                   globalIlluminationFlags, hideFlags, shaderKeywords, properties)
    }

    /** `new Material(shader)`: bound to `shader`, no stored property values. */
    constructor (shader: Shader)
      ensures this.shader == shader && properties == map[]
    {
      this.shader := shader;
      name := "";
      renderQueue := UseShaderDefault;
      enableInstancing := false;
      doubleSidedGI := false;
      globalIlluminationFlags := 0;
      hideFlags := 0;
      shaderKeywords := [];
      properties := map[];
    }

    /** A material object loaded from stored content. */
    constructor Load(data: MaterialData)
      ensures Data() == data
    {
      shader := data.shader;
      name := data.name;
      renderQueue := data.renderQueue;
      enableInstancing := data.enableInstancing;
      doubleSidedGI := data.doubleSidedGI;
      globalIlluminationFlags := data.globalIlluminationFlags;
      hideFlags := data.hideFlags;
      shaderKeywords := data.shaderKeywords;
      properties := data.properties;
    }

    method SetColor(n: string, c: Rgba)
      modifies this`properties
      ensures properties == old(properties)[n := ColorValue(c)]
    {
      properties := properties[n := ColorValue(c)];
    }

    method SetFloat(n: string, f: real)
      modifies this`properties
      ensures properties == old(properties)[n := FloatValue(f)]
    {
      properties := properties[n := FloatValue(f)];
    }

    method SetVector(n: string, v: Vector4)
      modifies this`properties
      ensures properties == old(properties)[n := VectorValue(v)]
    {
      properties := properties[n := VectorValue(v)];
    }

    method SetTexture(n: string, tex: Option<TextureRef>)
      modifies this`properties
      ensures properties == WithTexture(old(properties), n, tex)
    {
      properties := WithTexture(properties, n, tex);
    }

    method SetTextureScale(n: string, scale: Vector2)
      modifies this`properties
      ensures properties == WithTextureScale(old(properties), n, scale)
    {
      properties := WithTextureScale(properties, n, scale);
    }

    method SetTextureOffset(n: string, offset: Vector2)
      modifies this`properties
      ensures properties == WithTextureOffset(old(properties), n, offset)
    {
      properties := WithTextureOffset(properties, n, offset);
    }
  }
}
