/** Texture values: the semantic type and its string form, texture
    properties and their defaults, asset paths, the upload performed by
    `Texture::GenerateTexture`, and the name-keyed texture registry. */
module Textures {
  import opened Wrappers
  import opened Gl
  import opened StdMap

  /** `Settings::defaultDomain` once the settings are initialised. */
  const DefaultDomain: string := "muckreborn"

  datatype TextureType = Diffuse | Specular | Normal

  /** The sampler-name stem of a texture type. */
  function TextureType2String(t: TextureType): (s: string)
    ensures |s| > 8 && s[..8] == "texture_"
  {
    match t
    case Diffuse => "texture_diffuse"
    case Specular => "texture_specular"
    case Normal => "texture_normal"
  }

  /** Parses a sampler-name stem; anything unrecognised is a normal map. */
  function String2TextureType(s: string): (t: TextureType)
    ensures t == Diffuse <==> s == "texture_diffuse"
    ensures t == Specular <==> s == "texture_specular"
    ensures t == Normal <==> s != "texture_diffuse" && s != "texture_specular"
  {
    if s == "texture_diffuse" then Diffuse
    else if s == "texture_specular" then Specular
    else Normal
  }

  /** Printing a type and parsing it back gives the type. */
  lemma TextureTypeRoundTrip(t: TextureType)
    ensures String2TextureType(TextureType2String(t)) == t
  {
  }

  /** Parsing and printing back is the identity exactly on the three stems. */
  lemma TextureStringRoundTrip(s: string)
    ensures TextureType2String(String2TextureType(s)) == s
        <==> s in {"texture_diffuse", "texture_specular", "texture_normal"}
  {
  }

  datatype TextureProperties = TextureProperties(wrapping: int, precision: int, flip: bool, textureType: TextureType)

  /** `DEFAULT_TEXTURE_PROPERTIES`. */
  const DefaultTextureProperties := TextureProperties(GL_REPEAT, GL_NEAREST, true, Diffuse)

  /** `TEXTURE_PROPERTIES_WRAPPING(wrapping)`: the defaults with only the wrap mode replaced. */
  function PropertiesWrapping(wrapping: int): (p: TextureProperties)
    ensures p == DefaultTextureProperties.(wrapping := wrapping)
  {
    TextureProperties(wrapping, GL_NEAREST, true, Diffuse)
  }

  /** `TEXTURE_PROPERTIES_PRECISION(precision)`: the defaults with only the filter replaced. */
  function PropertiesPrecision(precision: int): (p: TextureProperties)
    ensures p == DefaultTextureProperties.(precision := precision)
  {
    TextureProperties(GL_REPEAT, precision, true, Diffuse)
  }

  /** `TEXTURE_PROPERTIES_FLIP(flip)`: the defaults with only the flip flag replaced. */
  function PropertiesFlip(flip: bool): (p: TextureProperties)
    ensures p == DefaultTextureProperties.(flip := flip)
  {
    TextureProperties(GL_REPEAT, GL_NEAREST, flip, Diffuse)
  }

  /** `TEXTURE_PROPERTIES_TYPE(type)`: the defaults with only the semantic type replaced. */
  function PropertiesType(textureType: TextureType): (p: TextureProperties)
    ensures p == DefaultTextureProperties.(textureType := textureType)
  {
    TextureProperties(GL_REPEAT, GL_NEAREST, true, textureType)
  }

  /** A texture record. The decoded pixel buffer is transient (freed at the
      end of the upload) and is not kept. */
  datatype Texture = Texture(name: string, path: string, width: int, height: int,
                             properties: TextureProperties, textureID: nat)

  /** A value-initialised `Texture{}`: empty name and path, no GL object. */
  const EmptyTexture := Texture("", "", 0, 0, TextureProperties(0, 0, false, Diffuse), 0)

  /** `Texture::RegisterGlobalPath`: the path is kept as given. */
  function RegisterGlobalPath(path: string, name: string, properties: TextureProperties): (t: Texture)
    ensures t.name == name && t.path == path && t.properties == properties
    ensures t.textureID == 0 && t.width == 0 && t.height == 0
  {
    EmptyTexture.(name := name, path := path, properties := properties)
  }

  /** The on-disk location of an asset: `assets/<domain>/<localPath>`. */
  function AssetPath(domain: string, localPath: string): (p: string)
    ensures |p| == 8 + |domain| + |localPath|
    ensures p[..7] == "assets/" && p[7..7 + |domain|] == domain && p[7 + |domain|] == '/'
    ensures p[8 + |domain|..] == localPath
  {
    "assets/" + domain + "/" + localPath
  }

  /** `Texture::Register`: the path is the asset path under `domain`. */
  function Register(localPath: string, name: string, properties: TextureProperties, domain: string): (t: Texture)
    ensures t == RegisterGlobalPath(AssetPath(domain, localPath), name, properties)
  {
    Texture(name, "assets/" + domain + "/" + localPath, 0, 0, properties, 0)
  }

  /** The GL pixel format for an image with `channels` components, 0 when
      the count is not one of 1, 3 and 4. */
  function Format(channels: int): (f: nat)
    ensures channels == 1 <==> f == GL_RED
    ensures channels == 3 <==> f == GL_RGB
    ensures channels == 4 <==> f == GL_RGBA
    ensures f == 0 <==> channels !in {1, 3, 4}
  {
    if channels == 1 then GL_RED
    else if channels == 3 then GL_RGB
    else if channels == 4 then GL_RGBA
    else 0
  }

  /** The calls `GenerateTexture` makes before it decodes the file. */
  function TextureSetupCalls(t: Texture, name: nat): seq<GlCall>
  {
    [ Gen(TextureName, name), BindTexture(GL_TEXTURE_2D, name),
      TexParameter(GL_TEXTURE_2D, GL_TEXTURE_WRAP_S, t.properties.wrapping),
      TexParameter(GL_TEXTURE_2D, GL_TEXTURE_WRAP_T, t.properties.wrapping),
      TexParameter(GL_TEXTURE_2D, GL_TEXTURE_MIN_FILTER, t.properties.precision),
      TexParameter(GL_TEXTURE_2D, GL_TEXTURE_MAG_FILTER, t.properties.precision),
      TexParameter(GL_TEXTURE_2D, GL_TEXTURE_WRAP_S, GL_CLAMP_TO_EDGE),
      TexParameter(GL_TEXTURE_2D, GL_TEXTURE_WRAP_T, GL_CLAMP_TO_EDGE),
      SetFlipOnLoad(t.properties.flip), LoadImage(t.path) ]
  }

  /** The calls after decoding: the upload when the file loaded, a
      non-fatal error otherwise, then the pixel buffer is freed. */
  function TextureDataCalls(load: ImageLoad): seq<GlCall>
  {
    match load
    case Loaded(img) =>
      [TexImage2D(GL_TEXTURE_2D, Format(img.channels), img.width, img.height), GenerateMipmap(GL_TEXTURE_2D), FreeImage]
    case LoadFailed => [LogError(NonFatal), FreeImage]
  }

  function TextureUploadCalls(t: Texture, name: nat, load: ImageLoad): seq<GlCall>
  {
    TextureSetupCalls(t, name) + TextureDataCalls(load)
  }

  /** The texture after `GenerateTexture`: it owns the new GL name, and the
      size of the decoded image when decoding succeeded. */
  function Generated(t: Texture, name: nat, load: ImageLoad): (r: Texture)
    ensures r.name == t.name && r.path == t.path && r.properties == t.properties
    ensures r.textureID == name
    ensures load.Loaded? ==> r.width == load.image.width && r.height == load.image.height
    ensures load.LoadFailed? ==> r.width == t.width && r.height == t.height
  {
    match load
    case Loaded(img) => t.(textureID := name, width := img.width, height := img.height)
    case LoadFailed => t.(textureID := name)
  }

  /** The value a texture parameter has after `calls`: the last one set. */
  function FinalParameter(calls: seq<GlCall>, pname: nat): Option<int>
    decreases |calls|
  {
    if calls == [] then None
    else
      var later := FinalParameter(calls[1..], pname);
      if later.Some? then later
      else if calls[0].TexParameter? && calls[0].pname == pname then Some(calls[0].param)
      else None
  }

  predicate SetsParameter(c: GlCall, pname: nat)
  {
    c.TexParameter? && c.pname == pname
  }

  lemma {:induction false} FinalParameterNone(calls: seq<GlCall>, pname: nat)
    requires forall j :: 0 <= j < |calls| ==> !SetsParameter(calls[j], pname)
    ensures FinalParameter(calls, pname) == None
    decreases |calls|
  {
    if calls != [] {
      FinalParameterNone(calls[1..], pname);
    }
  }

  /** The final value is the one set by the last call that sets it. */
  lemma {:induction false} FinalParameterLast(calls: seq<GlCall>, i: nat, pname: nat)
    requires i < |calls| && SetsParameter(calls[i], pname)
    requires forall j :: i < j < |calls| ==> !SetsParameter(calls[j], pname)
    ensures FinalParameter(calls, pname) == Some(calls[i].param)
    decreases i
  {
    if i == 0 {
      FinalParameterNone(calls[1..], pname);
    } else {
      FinalParameterLast(calls[1..], i - 1, pname);
    }
  }

  /** After `GenerateTexture` both wrap modes are `GL_CLAMP_TO_EDGE`, whatever
      `properties.wrapping` asked for, and both filters are
      `properties.precision`. */
  lemma FinalTextureParameters(t: Texture, name: nat, load: ImageLoad)
    ensures FinalParameter(TextureUploadCalls(t, name, load), GL_TEXTURE_WRAP_S) == Some(GL_CLAMP_TO_EDGE)
    ensures FinalParameter(TextureUploadCalls(t, name, load), GL_TEXTURE_WRAP_T) == Some(GL_CLAMP_TO_EDGE)
    ensures FinalParameter(TextureUploadCalls(t, name, load), GL_TEXTURE_MIN_FILTER) == Some(t.properties.precision)
    ensures FinalParameter(TextureUploadCalls(t, name, load), GL_TEXTURE_MAG_FILTER) == Some(t.properties.precision)
  {
    var calls := TextureUploadCalls(t, name, load);
    FinalParameterLast(calls, 6, GL_TEXTURE_WRAP_S);
    FinalParameterLast(calls, 7, GL_TEXTURE_WRAP_T);
    FinalParameterLast(calls, 4, GL_TEXTURE_MIN_FILTER);
    FinalParameterLast(calls, 5, GL_TEXTURE_MAG_FILTER);
  }

  /** `Texture::GenerateTexture`, with the texture returned as a value (the
      source updates the record where it is stored). */
  method GenerateTexture(gl: Context, t: Texture) returns (r: Texture)
    modifies gl
    ensures r == Generated(t, old(gl.nextName) + 1, ImageAt(gl.images, t.path))
    ensures gl.trace == old(gl.trace) + TextureUploadCalls(t, old(gl.nextName) + 1, ImageAt(gl.images, t.path))
    ensures gl.nextName == old(gl.nextName) + 1 && gl.errors == old(gl.errors)
  {
    ghost var t0 := gl.trace;
    var name, load := SetUpTexture(gl, t);
    r := t.(textureID := name);
    if load.Loaded? {
      r := r.(width := load.image.width, height := load.image.height);
    }
    UploadImage(gl, load);
    ConcatAssociative(t0, TextureSetupCalls(t, name), TextureDataCalls(load));
  }

  /** The first part of `GenerateTexture`: a new texture name is bound, its
      parameters set and the image file decoded. */
  method SetUpTexture(gl: Context, t: Texture) returns (name: nat, load: ImageLoad)
    modifies gl
    ensures name == old(gl.nextName) + 1 && load == ImageAt(gl.images, t.path)
    ensures gl.trace == old(gl.trace) + TextureSetupCalls(t, name)
    ensures gl.nextName == name && gl.errors == old(gl.errors)
  {
    name := gl.GenName(TextureName);
    gl.Call(BindTexture(GL_TEXTURE_2D, name));
    gl.Calls([TexParameter(GL_TEXTURE_2D, GL_TEXTURE_WRAP_S, t.properties.wrapping),
              TexParameter(GL_TEXTURE_2D, GL_TEXTURE_WRAP_T, t.properties.wrapping)]);
    gl.Calls([TexParameter(GL_TEXTURE_2D, GL_TEXTURE_MIN_FILTER, t.properties.precision),
              TexParameter(GL_TEXTURE_2D, GL_TEXTURE_MAG_FILTER, t.properties.precision)]);
    gl.Calls([TexParameter(GL_TEXTURE_2D, GL_TEXTURE_WRAP_S, GL_CLAMP_TO_EDGE),
              TexParameter(GL_TEXTURE_2D, GL_TEXTURE_WRAP_T, GL_CLAMP_TO_EDGE)]);
    gl.Call(SetFlipOnLoad(t.properties.flip));
    load := gl.Load(t.path);
  }

  /** The second part of `GenerateTexture`: the decoded image is uploaded,
      or the failure logged, and the pixel buffer freed. */
  method UploadImage(gl: Context, load: ImageLoad)
    modifies gl
    ensures gl.trace == old(gl.trace) + TextureDataCalls(load)
    ensures gl.nextName == old(gl.nextName) && gl.errors == old(gl.errors)
  {
    match load {
      case Loaded(img) =>
        gl.Calls([TexImage2D(GL_TEXTURE_2D, Format(img.channels), img.width, img.height), GenerateMipmap(GL_TEXTURE_2D)]);
      case LoadFailed =>
        gl.Call(LogError(NonFatal));
    }
    gl.Call(FreeImage);
  }

  /** `TextureManager`: the process-wide registry of textures by name. */
  class TextureManager {
    var registeredTextures: map<string, Texture>

    constructor ()
      ensures registeredTextures == map[]
    {
      registeredTextures := map[];
    }

    /** Registers under the texture's name; an existing entry is kept. */
    method RegisterTexture(texture: Texture)
      modifies this`registeredTextures
      ensures registeredTextures == Insert(old(registeredTextures), texture.name, texture)
    {
      registeredTextures := Insert(registeredTextures, texture.name, texture);
    }

    /** Looks up by name; a name never registered gets an empty texture,
        which is stored under it from then on. */
    method GetTexture(name: string) returns (texture: Texture)
      modifies this`registeredTextures
      ensures registeredTextures == Subscript(old(registeredTextures), name, EmptyTexture)
      ensures texture == if name in old(registeredTextures) then old(registeredTextures)[name] else EmptyTexture
    {
      registeredTextures := Subscript(registeredTextures, name, EmptyTexture);
      texture := registeredTextures[name];
    }
  }

  /** Two registrations under one name leave the first in the registry. */
  lemma RegistryKeepsFirstTexture(m: map<string, Texture>, first: Texture, second: Texture)
    requires first.name == second.name
    ensures Insert(Insert(m, first.name, first), second.name, second)[first.name]
         == if first.name in m then m[first.name] else first
  {
  }
}
