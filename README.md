# MuckReborn engine core in Dafny

This project models the rendering, world and input core of the MuckReborn
engine, a small OpenGL game engine written in C++:

- **Renderer**: the registry of renderable objects and how it draws them.
- **Renderable objects**: their deferred GL buffer and attribute requests, and their upload.
- **Texture manager**: the texture registry and texture upload.
- **Lighting manager**: directional, point and spot lights sent to every object's shader as uniforms.
- **Model import**: scene-graph traversal, meshes and material textures.
- **Terrain chunk**: a 128 x 128 quad grid raised by a noise function.
- **Input manager**: per-key state.

The engine works by mutating objects and global tables, so the model
keeps that form:

- `RenderableObject`, `Registry`, `TextureManager`, `LightingManager`,
  `Model`, `Chunk` and `InputManager` are classes whose methods update
  their fields.
- Lights, textures, vertices, queued requests and imported scenes are
  datatypes.

## Foreign code and how it is represented

- **OpenGL, the shader manager, stb_image and the logger.** These are
  foreign code. Each call the engine makes to them is appended to the
  trace of a `Gl.Context`, as one `GlCall` record.
- **GL object names.** They come from a counter: `glGen*` hands out the
  next number.
- **`glGetError`.** The codes it reports are an input: a queue of pending
  codes.
- **Images on disk.** The images stb_image can read are an input: a map
  from path to image.
- **`typeid` and `std::to_string`.**
  - `typeid` is the `TypeId` datatype.
  - `std::to_string` is `Strings.IntToString`, with a proved round trip
    and injectivity.
- **`std::map`.** It is a Dafny `map`, with three helpers in `StdMap`:
  - `insert` keeps an existing entry;
  - `operator[]` inserts a default value for a missing key;
  - iteration visits keys in ascending lexicographic order
    (`StdMap.Keys`, built on `Strings.SortedKeys`).
- **Assimp.** The importer is a map from file path to the `Scene` it
  returns.
- **Terrain noise.** The noise source is a function parameter.
- **Floats.** `float` values are `real`.

The specification of each method is a function on values: the calls it
makes, or the state it leaves. The lemmas beside those functions state
the properties the engine relies on, for example:

- every registered object is drawn exactly once per pass;
- light slots follow the tables' name order, and uniform names never
  collide;
- the terrain is seamless;
- a buffer queue drains up to its first unknown bind;
- texture-type names round-trip;
- only the first imported mesh enters the registry.

Where the code behaves oddly, the model keeps the code's behaviour and says
so in the table:

- **Spot-light guard.** `AddSpotLight` checks the number of point lights.
- **Model texture lookup never hits.** `LoadTextures` compares the raw
  material path with the stored `assets/...` path. When the material's
  paths do not themselves start with `assets/`, a lookup never finds a
  stored texture.
- **One mesh registered per model.** Every imported mesh is registered
  under the one name `mesh`, so only the first gets in.
- **Wrap setting ignored.** `GenerateTexture` always clamps wrapping to
  the edge, whatever the texture's properties say.
- **Lookups insert entries.** `GetTexture` and `GetRenderableObject`
  insert an entry for a missing name.
- **Uniform name misspelt.** The spot-light uniform `outurCutOff` keeps
  its misspelling.

## Model

| member | source | states |
|---|---|---|
| Strings.LexLessIrreflexive | MuckReborn/include/rendering/Renderer.hpp:374 | the key order of the registry's `std::map` is irreflexive |
| Strings.LexLessAsymmetric | MuckReborn/include/rendering/Renderer.hpp:374 | the key order is asymmetric |
| Strings.LexLessTransitive | MuckReborn/include/rendering/Renderer.hpp:374 | the key order is transitive |
| Strings.LexLessTotal | MuckReborn/include/rendering/Renderer.hpp:374 | any two distinct keys are ordered one way or the other |
| Strings.LexLessAsymmetricAll | MuckReborn/include/rendering/Renderer.hpp:374 | asymmetry for all pairs at once |
| Strings.LeastExists | MuckReborn/include/rendering/Renderer.hpp:374 | every non-empty key set has a least key |
| Strings.Least | MuckReborn/include/rendering/Renderer.hpp:374 | the key a map's iteration visits first is in the set and below every other |
| Strings.SortedKeys | MuckReborn/include/rendering/Renderer.hpp:374 | the iteration order lists as many keys as the set holds |
| Strings.SortedKeysMembers | MuckReborn/include/rendering/Renderer.hpp:374 | iteration visits exactly the keys of the set |
| Strings.SortedKeysAscending | MuckReborn/include/rendering/Renderer.hpp:374 | iteration visits keys in strictly ascending order |
| Strings.AscendingAfterLeast | MuckReborn/include/rendering/Renderer.hpp:374 | the least key followed by an ascending list of the others is ascending |
| Strings.SortedDistinct | MuckReborn/include/rendering/Renderer.hpp:374 | an ascending key list repeats no key |
| Strings.DigitChar | MuckReborn/include/world/Chunk.hpp:29 | a decimal digit is a character from '0' to '9' |
| Strings.DigitValue | MuckReborn/include/world/Chunk.hpp:29 | a digit character has a value below ten |
| Strings.NatToString | MuckReborn/include/rendering/LightingManager.hpp:128 | `std::to_string` of a count is non-empty, all digits, with no leading zero |
| Strings.IntToString | MuckReborn/include/world/Chunk.hpp:29 | `std::to_string` of an int starts with '-' exactly when it is negative, and is otherwise digits |
| Strings.NatToStringRoundTrip | MuckReborn/include/rendering/LightingManager.hpp:128 | reading back the decimal text gives the number |
| Strings.NatToStringInjective | MuckReborn/include/rendering/LightingManager.hpp:128 | distinct counts give distinct text |
| Strings.IntToStringInjective | MuckReborn/include/world/Chunk.hpp:29 | distinct ints give distinct text |
| Strings.IntToStringRoundTrip | MuckReborn/include/world/Chunk.hpp:29 | reading the text back as an optional '-' followed by decimal digits gives the int again, for every int |
| StdMap.Insert | MuckReborn/include/rendering/Renderer.hpp:378-384 | `insert`: the key is present afterwards; an existing value is kept, otherwise the new one is stored; no other entry changes |
| StdMap.InsertFirstWins | MuckReborn/include/rendering/TextureManager.hpp:149-152 | a second insert under the same key changes nothing |
| StdMap.InsertSize | MuckReborn/include/rendering/LightingManager.hpp:92-100 | insert grows the map by one exactly when the key is new |
| StdMap.Subscript | MuckReborn/include/rendering/TextureManager.hpp:154-157 | `operator[]`: a missing key is added with the default value, and present entries are unchanged |
| StdMap.Keys | MuckReborn/include/rendering/Renderer.hpp:435 | range-for visits each key of the map |
| StdMap.KeysAscending | MuckReborn/include/rendering/Renderer.hpp:435 | range-for visits keys in ascending order |
| StdMap.KeysDistinct | MuckReborn/include/rendering/Renderer.hpp:435 | range-for visits no key twice |
| StdMap.Values | MuckReborn/include/rendering/LightingManager.hpp:126 | range-for over the values: value `i` is filed under key `i` |
| Gl.TypeOf | MuckReborn/include/rendering/Renderer.hpp:386-390 | `typeid(T)` is one of the nine dispatched types exactly when the value has one of them |
| Gl.ImageAt | MuckReborn/include/rendering/TextureManager.hpp:101 | `stbi_load` succeeds exactly when the file exists |
| Gl.Context.GenName | MuckReborn/include/rendering/Renderer.hpp:150-152 | `glGen*` hands out a fresh name, one above the last, and records the call |
| Gl.Context.GetErrorCode | MuckReborn/include/rendering/Renderer.hpp:484 | `glGetError` returns the next pending code (or no error) and consumes it |
| Gl.Context.Load | MuckReborn/include/rendering/TextureManager.hpp:101 | `stbi_load` returns the image at the path, or a failure, and records the call |
| Textures.TextureType2String | MuckReborn/include/rendering/TextureManager.hpp:28-44 | every type name starts with `texture_` |
| Textures.String2TextureType | MuckReborn/include/rendering/TextureManager.hpp:46-54 | `texture_diffuse` and `texture_specular` map to their types, and anything else maps to normal |
| Textures.TextureTypeRoundTrip | MuckReborn/include/rendering/TextureManager.hpp:28-54 | parsing a type's name gives the type back |
| Textures.TextureStringRoundTrip | MuckReborn/include/rendering/TextureManager.hpp:28-54 | parsing a string and printing the type back gives the string exactly when it is one of the three type names |
| Textures.PropertiesWrapping | MuckReborn/include/rendering/TextureManager.hpp:16 | the wrapping macro gives the defaults with only the wrapping changed |
| Textures.PropertiesPrecision | MuckReborn/include/rendering/TextureManager.hpp:17 | the precision macro gives the defaults with only the filter changed |
| Textures.PropertiesFlip | MuckReborn/include/rendering/TextureManager.hpp:18 | the flip macro gives the defaults with only the flip changed |
| Textures.PropertiesType | MuckReborn/include/rendering/TextureManager.hpp:19 | the type macro gives the defaults with only the type changed |
| Textures.RegisterGlobalPath | MuckReborn/include/rendering/TextureManager.hpp:133-142 | the texture keeps the name, path and properties, with no GL name and no size yet |
| Textures.AssetPath | MuckReborn/include/rendering/TextureManager.hpp:127 | the path is `assets/`, then the domain, `/`, and the local path |
| Textures.Register | MuckReborn/include/rendering/TextureManager.hpp:122-131 | `Register` is `RegisterGlobalPath` under the asset path of the domain |
| Textures.Format | MuckReborn/include/rendering/TextureManager.hpp:103-114 | one, three or four channels select RED, RGB or RGBA, and any other count leaves the format 0 |
| Textures.Generated | MuckReborn/include/rendering/TextureManager.hpp:84-120 | after generation the texture holds its new GL name and keeps its name, path and properties; a successful load gives it the image's width and height, and a failed load leaves the size unchanged |
| Textures.FinalParameterNone | MuckReborn/include/rendering/TextureManager.hpp:89-96 | a parameter no call sets has no final value |
| Textures.FinalParameterLast | MuckReborn/include/rendering/TextureManager.hpp:89-96 | a parameter's final value is the one its last setter gave |
| Textures.FinalTextureParameters | MuckReborn/include/rendering/TextureManager.hpp:89-96 | after upload both wrap axes are CLAMP_TO_EDGE whatever the properties say, and both filters are the texture's precision |
| Textures.GenerateTexture | MuckReborn/include/rendering/TextureManager.hpp:84-120 | the texture gets the next GL name; the trace holds its setup, image upload (or failure log) and free |
| Textures.SetUpTexture | MuckReborn/include/rendering/TextureManager.hpp:86-101 | name generation, binding, parameters, flip and load, with the load's result |
| Textures.UploadImage | MuckReborn/include/rendering/TextureManager.hpp:103-119 | a loaded image is uploaded in its format and mipmapped, and a failed one is logged |
| Textures.TextureManager.RegisterTexture | MuckReborn/include/rendering/TextureManager.hpp:149-152 | the registry inserts under the texture's name, and an existing entry is kept |
| Textures.TextureManager.GetTexture | MuckReborn/include/rendering/TextureManager.hpp:154-157 | returns the stored texture or an empty one, which is then stored under the name |
| Textures.RegistryKeepsFirstTexture | MuckReborn/include/rendering/TextureManager.hpp:149-152 | registering two textures of one name keeps the first |
| Input.Updated | MuckReborn/include/core/Input.hpp:27-35 | each tracked key's previous state becomes its old current state, and its current state is whether it is pressed; no key is added |
| Input.Tracked | MuckReborn/include/core/Input.hpp:37-50 | a query of an untracked key adds it, released, and changes nothing else |
| Input.InputManager.UpdateInput | MuckReborn/include/core/Input.hpp:27-35 | the key table becomes its update by the set of pressed keys |
| Input.InputManager.GetKeyDown | MuckReborn/include/core/Input.hpp:37-40 | true exactly when the key's current state is pressed; the key is tracked afterwards |
| Input.InputManager.GetKeyUp | MuckReborn/include/core/Input.hpp:42-45 | true exactly when the key's current state is released; the key is tracked afterwards |
| Input.InputManager.GetKeyJustPressed | MuckReborn/include/core/Input.hpp:47-50 | true exactly when the key is pressed now and was not at the previous update |
| Input.QueryUntrackedKey | MuckReborn/include/core/Input.hpp:37-50 | an untracked key reads as released and not just pressed, and the table grows by one |
| Input.QueryIsStable | MuckReborn/include/core/Input.hpp:37-50 | a second query adds nothing, and other keys are untouched |
| Input.HeldKeyJustPressedOnce | MuckReborn/include/core/Input.hpp:27-50 | a key held over two updates is just-pressed after the first and not after the second |
| Input.JustPressedAfterUpdate | MuckReborn/include/core/Input.hpp:27-50 | after an update a key is just-pressed exactly when it is pressed and was not before |
| Input.UpdateTracksNoNewKeys | MuckReborn/include/core/Input.hpp:29 | a pressed key that was never queried stays untracked |
| Lighting.RegisterPointLight | MuckReborn/include/rendering/LightingManager.hpp:39-42 | each parameter lands in the field of its own name, although the parameters come in a different order from the fields |
| Lighting.RegisterSpotLight | MuckReborn/include/rendering/LightingManager.hpp:60-63 | each of the ten parameters lands in the field of its own name, despite the reordering |
| Lighting.UniformList | MuckReborn/include/rendering/LightingManager.hpp:116-163 | one uniform call per name, in order, with the matching value |
| Lighting.SlotNames | MuckReborn/include/rendering/LightingManager.hpp:128-135 | one slot-qualified name per field |
| Lighting.PointLightsCalls | MuckReborn/include/rendering/LightingManager.hpp:123-139 | eight uniforms per point light |
| Lighting.SpotLightsCalls | MuckReborn/include/rendering/LightingManager.hpp:141-159 | ten uniforms per spot light |
| Lighting.PointLightsStep | MuckReborn/include/rendering/LightingManager.hpp:126-137 | one more point light appends its slot's eight uniforms |
| Lighting.SpotLightsStep | MuckReborn/include/rendering/LightingManager.hpp:144-157 | one more spot light appends its slot's ten uniforms |
| Lighting.PointLightsCallsBlocks | MuckReborn/include/rendering/LightingManager.hpp:123-139 | point light `k` owns uniforms `8k` to `8k + 7`, under slot `k` |
| Lighting.PointLightBlock | MuckReborn/include/rendering/LightingManager.hpp:123-139 | the same for one `k` |
| Lighting.SpotLightsCallsBlocks | MuckReborn/include/rendering/LightingManager.hpp:141-159 | spot light `k` owns uniforms `10k` to `10k + 9`, under slot `k` |
| Lighting.SpotLightBlock | MuckReborn/include/rendering/LightingManager.hpp:141-159 | the same for one `k` |
| Lighting.PointSlotsInKeyOrder | MuckReborn/include/rendering/LightingManager.hpp:124-138 | slot `k` holds the point light filed under the `k`-th smallest name |
| Lighting.SpotSlotsInKeyOrder | MuckReborn/include/rendering/LightingManager.hpp:142-158 | slot `k` holds the spot light filed under the `k`-th smallest name |
| Lighting.ObjectLightingLayout | MuckReborn/include/rendering/LightingManager.hpp:116-163 | an object gets `viewPos` first, 8 + 8p + 10s uniforms in all, and the three material constants last; empty tables add nothing |
| Lighting.LightingPassAppend | MuckReborn/include/rendering/LightingManager.hpp:114-164 | the pass over a list of objects is the passes over its parts, concatenated |
| Lighting.LightingPassSingle | MuckReborn/include/rendering/LightingManager.hpp:114-164 | the pass over one object is its lighting uniforms |
| Lighting.LightingPassStep | MuckReborn/include/rendering/LightingManager.hpp:114-164 | one more object appends its lighting uniforms |
| Lighting.NumberedFieldsDiffer | MuckReborn/include/rendering/LightingManager.hpp:128-135 | `<n>].<field>` differs whenever the slot or the field differs |
| Lighting.BracketAfterDigits | MuckReborn/include/rendering/LightingManager.hpp:128 | the first `]` of `<n>].<field>` is right after the digits |
| Lighting.SlotNamesDiffer | MuckReborn/include/rendering/LightingManager.hpp:128-155 | two uniform names in one light table differ whenever the slot or the field differs |
| Lighting.PointUniformsDistinct | MuckReborn/include/rendering/LightingManager.hpp:123-139 | no two point-light uniforms of one pass share a name |
| Lighting.SpotUniformsDistinct | MuckReborn/include/rendering/LightingManager.hpp:141-159 | no two spot-light uniforms of one pass share a name |
| Lighting.LightingManager.constructor | MuckReborn/include/rendering/LightingManager.hpp:80-83 | a default directional light and empty tables |
| Lighting.LightingManager.SetDirectionalLight | MuckReborn/include/rendering/LightingManager.hpp:85-90 | the directional light is replaced and the stored value returned |
| Lighting.LightingManager.AddPointLight | MuckReborn/include/rendering/LightingManager.hpp:92-100 | with ten point lights, a fatal error and no change; otherwise an insert that keeps an existing light of that name, returning the stored light; the table never exceeds ten |
| Lighting.LightingManager.AddSpotLight | MuckReborn/include/rendering/LightingManager.hpp:102-110 | the same for spot lights, except that the guard counts the point lights |
| Lighting.LightingManager.PostLightingInstructions | MuckReborn/include/rendering/LightingManager.hpp:112-165 | every registered object, in name order, receives its lighting uniforms |
| Lighting.LightingManager.PostObjectLighting | MuckReborn/include/rendering/LightingManager.hpp:116-163 | one object's uniforms: eye position, directional light, light tables and material |
| Lighting.LightingManager.PostLightTables | MuckReborn/include/rendering/LightingManager.hpp:123-159 | the point-light then the spot-light uniforms |
| Lighting.LightingManager.PostPointLights | MuckReborn/include/rendering/LightingManager.hpp:123-139 | the point-light loop emits each light's eight uniforms under its slot number |
| Lighting.LightingManager.PostSpotLights | MuckReborn/include/rendering/LightingManager.hpp:141-159 | the spot-light loop emits each light's ten uniforms under its slot number |
| Renderables.KnownBufferCalls | MuckReborn/include/rendering/Renderer.hpp:310-324 | two calls, a bind and an upload, per performed request |
| Renderables.DrainBufferCalls | MuckReborn/include/rendering/Renderer.hpp:310-324 | what is left of the queue after the drain is one of its suffixes |
| Renderables.DrainedPrefixIsKnown | MuckReborn/include/rendering/Renderer.hpp:310-324 | the drain stops only at a request whose bind is neither VBO nor EBO |
| Renderables.DrainPerformsPrefix | MuckReborn/include/rendering/Renderer.hpp:310-324 | every request before the remaining part was performed, in queue order |
| Renderables.DrainBufferStep | MuckReborn/include/rendering/Renderer.hpp:312-322 | a request with a known bind is performed and popped before the rest drain |
| Renderables.KnownCallsUploadAddresses | MuckReborn/include/rendering/Renderer.hpp:315-317 | queued requests upload only from their own addresses |
| Renderables.DefaultUploadIffNoRequests | MuckReborn/include/rendering/Renderer.hpp:297-325 | the object's own vertex and index arrays are uploaded exactly when no buffer request is queued |
| Renderables.DrainStopsAtUnknownBind | MuckReborn/include/rendering/Renderer.hpp:319 | with the first unknown bind at `k`, exactly `k` requests are performed and the rest stay queued |
| Renderables.DrainEmptiesKnownQueue | MuckReborn/include/rendering/Renderer.hpp:310-324 | a queue of known binds drains completely |
| Renderables.PointerCallCalls | MuckReborn/include/rendering/Renderer.hpp:266-287 | an integer request uses the I variant, the float one the plain variant, and the attribute is then enabled |
| Renderables.DrainPointerCalls | MuckReborn/include/rendering/Renderer.hpp:264-289 | two calls per queued pointer request |
| Renderables.DrainPointerCallsInOrder | MuckReborn/include/rendering/Renderer.hpp:264-289 | request `i` makes calls `2i` and `2i + 1` |
| Renderables.QueuedPointersUseAddresses | MuckReborn/include/rendering/Renderer.hpp:264-289 | queued requests never set up the default vertex layout |
| Renderables.DefaultLayoutIffNotReplaced | MuckReborn/include/rendering/Renderer.hpp:247-262 | the default layout is set up exactly when the object does not replace it |
| Renderables.TexturesGenerated | MuckReborn/include/rendering/Renderer.hpp:161-162 | texture generation keeps the set of texture names |
| Renderables.TexturesStep | MuckReborn/include/rendering/Renderer.hpp:161-162 | one more texture gets the next name and appends its upload |
| Renderables.PrefixExcludes | MuckReborn/include/rendering/Renderer.hpp:161 | in a list without repeats, no earlier key equals the current one |
| Renderables.TexturesGeneratedOutside | MuckReborn/include/rendering/Renderer.hpp:161-162 | a texture not visited is unchanged |
| Renderables.TexturesGeneratedInOrder | MuckReborn/include/rendering/Renderer.hpp:161-162 | the `i`-th texture in name order owns GL name `start + i + 1` |
| Renderables.GenerateTextureMap | MuckReborn/include/rendering/Renderer.hpp:161-162 | every texture is generated in name order, one fresh name each |
| Renderables.GenerateNext | MuckReborn/include/rendering/Renderer.hpp:161-162 | one turn of the texture loop |
| Renderables.RenderableObject.constructor | MuckReborn/include/rendering/Renderer.hpp:98-117 | a default object: no shader, nothing queued, handle slots 0 |
| Renderables.RenderableObject.Register | MuckReborn/include/rendering/Renderer.hpp:327-339 | a fresh object with the given name, geometry, flags and shader, at the origin, with nothing queued and no textures |
| Renderables.RenderableObject.RequestGLPointerCall | MuckReborn/include/rendering/Renderer.hpp:240-243 | the attribute request is queued at the back |
| Renderables.RenderableObject.RequestGLBufferCall | MuckReborn/include/rendering/Renderer.hpp:292-295 | the buffer request is queued at the back |
| Renderables.RenderableObject.RegisterTexture | MuckReborn/include/rendering/Renderer.hpp:341-344 | the texture is inserted under its name, and an existing one is kept |
| Renderables.RenderableObject.ReRegister | MuckReborn/include/rendering/Renderer.hpp:346-350 | the geometry is replaced |
| Renderables.RenderableObject.PostGLBufferCalls | MuckReborn/include/rendering/Renderer.hpp:297-325 | the default upload for an empty queue, otherwise a drain; an unknown bind throws and leaves it and the requests behind it queued |
| Renderables.RenderableObject.DrainBufferQueue | MuckReborn/include/rendering/Renderer.hpp:310-324 | the drain loop performs the drain and reports the throw |
| Renderables.RenderableObject.PostBufferCall | MuckReborn/include/rendering/Renderer.hpp:312-322 | one request: bind its buffer and upload its data |
| Renderables.RenderableObject.PostGLPointerCalls | MuckReborn/include/rendering/Renderer.hpp:245-290 | the default layout unless replaced, then every queued request in order; the queue is emptied |
| Renderables.RenderableObject.PostPointerFront | MuckReborn/include/rendering/Renderer.hpp:264-289 | the front request is performed and popped |
| Renderables.RenderableObject.GenerateTextures | MuckReborn/include/rendering/Renderer.hpp:161-162 | every texture of the object, in name order, is generated |
| Renderables.RenderableObject.GenerateRawData | MuckReborn/include/rendering/Renderer.hpp:146-169 | three fresh names for VAO, VBO and EBO, then the buffer upload; if that throws, nothing further; otherwise the layout, the textures and the shader setup |
| Renderables.RenderableObject.GeneratePlainRawData | MuckReborn/include/rendering/Renderer.hpp:146-169 | the same for an object with nothing queued: the default upload and layout, never a throw; the trace, the next GL name, the three buffer names and every texture generated are exactly `PlainOutcome` of the state before, and the error queue is untouched |
| Renderables.UploadedPlain | MuckReborn/include/rendering/Renderer.hpp:146-169 | with no request queued and the default layout, the general upload outcome `UploadOutcome` does not throw and is `PlainOutcome`: the plain calls, VAO/VBO/EBO named `last`+1..+3, every texture generated from `last`+4 on, `last`+3+(texture count) names used |
| Renderables.RenderableObject.GenerateNames | MuckReborn/include/rendering/Renderer.hpp:148-154 | shader generation and three fresh names stored under VAO, VBO and EBO |
| Renderables.RenderableObject.FinishRawData | MuckReborn/include/rendering/Renderer.hpp:157-168 | layout, textures and shader setup after the upload |
| Renderables.RenderableObject.SetUpLayout | MuckReborn/include/rendering/Renderer.hpp:157-159 | the attribute setup, then the vertex array is unbound |
| Renderables.RenderableObject.CleanUp | MuckReborn/include/rendering/Renderer.hpp:352-369 | the VAO, both buffers and the shader are released, and the geometry and handles are cleared |
| TestCube.CubeVertex | MuckReborn/include/rendering/Renderer.hpp:175-208 | the face direction lands in `color` and the normal is white, as the argument order gives |
| TestCube.FaceBlocks | MuckReborn/include/rendering/Renderer.hpp:175-229 | face `k` owns vertices `4k..4k+3` and indices `6k..6k+5` |
| TestCube.FaceTriangles | MuckReborn/include/rendering/Renderer.hpp:210-229 | each face's two triangles use only its own four vertices, use all four, and repeat none within a triangle |
| TestCube.IndicesInRange | MuckReborn/include/rendering/Renderer.hpp:210-229 | every index names one of the 24 vertices |
| TestCube.FaceIsFlat | MuckReborn/include/rendering/Renderer.hpp:175-208 | each face lies in one axis plane on corners of the half-unit cube, with one direction and the unit-square texture coordinates |
| TestCube.GenerateTestObject | MuckReborn/include/rendering/Renderer.hpp:171-238 | on any existing object: it is renamed `testObject`, made plain with the default shader and transform, gets the test texture (entered empty in the texture registry when absent, and not replacing a texture of that name the object already holds) and the cube; the upload then drains whatever requests the object still had queued, under its own layout flag, exactly as `UploadOutcome` says; the GL error queue is left as it was |
| TestCube.PrepareTestObject | MuckReborn/include/rendering/Renderer.hpp:171-174 | the settings, the test texture inserted into the object's textures, the registry entry and the cube |
| TestCube.UploadTestObject | MuckReborn/include/rendering/Renderer.hpp:236-237 | `GenerateRawData` leaves the object and the context in the state `UploadOutcome` computes from the state before it; the GL error queue is left as it was |
| Renderer.InOrder | MuckReborn/include/rendering/Renderer.hpp:435 | one object per registry entry, in name order |
| Renderer.InOrderCovers | MuckReborn/include/rendering/Renderer.hpp:435 | every registered object is visited |
| Renderer.InOrderDistinct | MuckReborn/include/rendering/Renderer.hpp:500 | no object is visited twice |
| Renderer.UniformCalls | MuckReborn/include/rendering/Renderer.hpp:398-427 | a request emits at most one call, and only for the object it names; the call is the typed uniform, or a non-fatal error for an unknown type |
| Renderer.NextSlot | MuckReborn/include/rendering/Renderer.hpp:396 | the next registry position wraps round |
| Renderer.Advance | MuckReborn/include/rendering/Renderer.hpp:394-430 | `i` positions on, wrapping round |
| Renderer.AdvanceFront | MuckReborn/include/rendering/Renderer.hpp:394-430 | advancing one step, then `i` more, is advancing `i + 1` |
| Renderer.RoundRobinSnoc | MuckReborn/include/rendering/Renderer.hpp:394-430 | the last request goes to the object `|queue| - 1` positions on |
| Renderer.RoundRobinFront | MuckReborn/include/rendering/Renderer.hpp:394-430 | the first request goes to the current object, and the rest from the next |
| Renderer.SplitFirstAndLast | MuckReborn/include/rendering/Renderer.hpp:394-430 | pairing splits at both ends of the queue |
| Renderer.SplitRestLast | MuckReborn/include/rendering/Renderer.hpp:394-430 | the same, for the requests after the first |
| Renderer.PairingRoundRobin | MuckReborn/include/rendering/Renderer.hpp:392-431 | `PostShaderCalls` hands request `i` to the object `i` positions on from the first |
| Renderer.UnregisteredTargetsIgnored | MuckReborn/include/rendering/Renderer.hpp:392-431 | requests for unregistered names are popped and lost |
| Renderer.SoleObjectReceivesAll | MuckReborn/include/rendering/Renderer.hpp:392-431 | with one object, every well-typed request for it becomes its uniform, in order |
| Renderer.PairingProvenance | MuckReborn/include/rendering/Renderer.hpp:392-431 | every emitted call is a non-fatal error or the uniform one of the queued requests asked for |
| Renderer.LoneRequestForLaterObjectIsDropped | MuckReborn/include/rendering/Renderer.hpp:392-431 | with two or more objects, a lone request for any object but the first in key order is compared only against the first and is lost |
| Renderer.RequestedUniformReachesSoleObject | MuckReborn/include/rendering/Renderer.hpp:386-431 | a well-typed request for the only object reaches its shader |
| Renderer.Views | MuckReborn/include/rendering/Renderer.hpp:435-482 | one view per object |
| Renderer.CountType | MuckReborn/include/rendering/Renderer.hpp:448-460 | a per-type counter never exceeds the number of textures |
| Renderer.Consumed | MuckReborn/include/rendering/Renderer.hpp:484 | each poll consumes one pending error |
| Renderer.ConsumedStep | MuckReborn/include/rendering/Renderer.hpp:484 | poll `n` reports the `n`-th pending code or no error |
| Renderer.DrawsAppend | MuckReborn/include/rendering/Renderer.hpp:477-482 | the draws of a joined trace are the draws of its parts |
| Renderer.NoDraws | MuckReborn/include/rendering/Renderer.hpp:477-482 | a trace with no draw call draws nothing |
| Renderer.BindingsDrawNothing | MuckReborn/include/rendering/Renderer.hpp:444-465 | texture bindings draw nothing |
| Renderer.PairingDrawsNothing | MuckReborn/include/rendering/Renderer.hpp:392-431 | uniform requests draw nothing |
| Renderer.DrawTailDrawsOnce | MuckReborn/include/rendering/Renderer.hpp:467-487 | an object's draw is one draw call, in line or triangle mode, with its index count |
| Renderer.DrawCallsDrawOnce | MuckReborn/include/rendering/Renderer.hpp:437-488 | one object's whole turn draws once |
| Renderer.RenderPassDrawsEachObjectOnce | MuckReborn/include/rendering/Renderer.hpp:433-489 | a pass draws every registered object exactly once, in name order, with its index count |
| Renderer.CountsCons | MuckReborn/include/rendering/Renderer.hpp:435 | the per-object draw list of a pass is built from the first object's and the rest's |
| Renderer.CountTypeMonotone | MuckReborn/include/rendering/Renderer.hpp:448-460 | per-type counters never decrease |
| Renderer.StemsDiffer | MuckReborn/include/rendering/Renderer.hpp:450-460 | samplers of different types have different names |
| Renderer.SamplerNamesDistinct | MuckReborn/include/rendering/Renderer.hpp:448-462 | in advanced mode no two textures of an object share a sampler name |
| Renderer.SameTypeSamplerNamesDiffer | MuckReborn/include/rendering/Renderer.hpp:448-462 | textures of one type get successive numbers |
| Renderer.CountStep | MuckReborn/include/rendering/Renderer.hpp:452-458 | a counter grows by one exactly for a texture of its type |
| Renderer.SuffixesDiffer | MuckReborn/include/rendering/Renderer.hpp:460 | different numbers give different sampler names |
| Renderer.Targets | MuckReborn/include/rendering/Renderer.hpp:500-503 | one clean-up target per object |
| Renderer.CleanUpAll | MuckReborn/include/rendering/Renderer.hpp:500-503 | four release calls per object |
| Renderer.CleanUpAllStep | MuckReborn/include/rendering/Renderer.hpp:500-503 | one more object appends its release calls |
| Renderer.CleanUpReleasesEach | MuckReborn/include/rendering/Renderer.hpp:496-508 | object `i` releases its own VAO, buffers and shader at calls `4i` to `4i + 3` |
| Renderer.Registry.constructor | MuckReborn/include/rendering/Renderer.hpp:374-376 | an empty registry and queue, with line drawing off |
| Renderer.Registry.RegisterRenderableObject | MuckReborn/include/rendering/Renderer.hpp:378-384 | inserted under its name, and an existing entry is kept |
| Renderer.Registry.RequestShaderCall | MuckReborn/include/rendering/Renderer.hpp:386-390 | the request is queued with the value's type identity |
| Renderer.Registry.GetRenderableObject | MuckReborn/include/rendering/Renderer.hpp:491-494 | returns the object, or null after entering the name with no object |
| Renderer.Registry.PostShaderCalls | MuckReborn/include/rendering/Renderer.hpp:392-431 | the queue is emptied, emitting the round-robin pairing of requests with objects |
| Renderer.Registry.PostFront | MuckReborn/include/rendering/Renderer.hpp:398-428 | one inner iteration: the front request is compared with one object and popped |
| Renderer.Registry.BindTextureValues | MuckReborn/include/rendering/Renderer.hpp:444-465 | every texture bound to its unit in name order, with sampler uniforms in advanced mode |
| Renderer.Registry.BindTextureAt | MuckReborn/include/rendering/Renderer.hpp:446-464 | one texture, and the type counters count the textures so far |
| Renderer.Registry.Draw | MuckReborn/include/rendering/Renderer.hpp:467-487 | matrices, the draw call, and one error poll |
| Renderer.Registry.DrawObject | MuckReborn/include/rendering/Renderer.hpp:437-488 | one object's turn: shader, textures, the queued requests, the draw |
| Renderer.Registry.RenderObjects | MuckReborn/include/rendering/Renderer.hpp:433-489 | the whole pass over the registry in name order, consuming one pending error per object |
| Renderer.Registry.DrawAll | MuckReborn/include/rendering/Renderer.hpp:435-488 | the loop of the pass; the queued requests are drained with the first object |
| Renderer.Registry.RenderStep | MuckReborn/include/rendering/Renderer.hpp:437-488 | one iteration of the pass |
| Renderer.Registry.CleanUpEach | MuckReborn/include/rendering/Renderer.hpp:500-503 | each object is cleaned up in turn |
| Renderer.Registry.CleanUpNext | MuckReborn/include/rendering/Renderer.hpp:502 | the next object is cleaned up and its calls extend the trace; the objects already cleaned stay cleaned and the rest keep the names and buffers recorded for them |
| Renderer.Registry.CleanUpObjects | MuckReborn/include/rendering/Renderer.hpp:496-508 | every registered object releases its GL objects, the table is emptied, and the clean-up event fires |
| World.GridVertices | MuckReborn/include/world/Chunk.hpp:41-47 | four corners per quad |
| World.GridIndices | MuckReborn/include/world/Chunk.hpp:41-47 | six indices per quad |
| World.Heightened | MuckReborn/include/world/Chunk.hpp:49-54 | only each vertex's height changes, to the noise at its x and z, so vertices sharing x and z share a position |
| World.Terrain | MuckReborn/include/world/Chunk.hpp:35-54 | the mesh has 65536 vertices |
| World.GridIndicesInRange | MuckReborn/include/world/Chunk.hpp:63-79 | every index names an existing corner |
| World.GridQuadAt | MuckReborn/include/world/Chunk.hpp:63-79 | quad `q` owns vertices `4q..4q+3` and indices `6q..6q+5`, over its own corners |
| World.OriginOfQuad | MuckReborn/include/world/Chunk.hpp:41-47 | quad `128i + j` is the one made at x = i/8, z = j/8 |
| World.QuadInGrid | MuckReborn/include/world/Chunk.hpp:41-47 | every loop position is a quad of the grid |
| World.CornerOfQuad | MuckReborn/include/world/Chunk.hpp:41-79 | vertex `4(128i + j) + c` is corner `c` of the quad at (i/8, j/8) |
| World.NeighbourInX | MuckReborn/include/world/Chunk.hpp:41-79 | a quad's far x corner meets the next quad's near corner |
| World.NeighbourInZ | MuckReborn/include/world/Chunk.hpp:41-79 | a quad's far z corner meets the next quad's near corner |
| World.SeamlessTerrain | MuckReborn/include/world/Chunk.hpp:35-79 | the raised terrain has no cracks between neighbouring quads |
| World.ChunkNameInjective | MuckReborn/include/world/Chunk.hpp:29 | distinct chunk positions give distinct object names |
| World.SplitAt | MuckReborn/include/world/Chunk.hpp:29 | a number's text, then a separator, determines both parts |
| World.Chunk.constructor | MuckReborn/include/world/Chunk.hpp:10-17 | no object, no noise and no mesh |
| World.Chunk.GenerateQuad | MuckReborn/include/world/Chunk.hpp:63-79 | four corners one eighth above the position, two triangles over them, and the counter moves on by four |
| World.Chunk.BuildMesh | MuckReborn/include/world/Chunk.hpp:37-54 | the mesh is the raised grid |
| World.Chunk.BuildGrid | MuckReborn/include/world/Chunk.hpp:41-47 | both loops produce the whole grid |
| World.Chunk.GenerateRow | MuckReborn/include/world/Chunk.hpp:43-46 | the inner loop adds one row of quads |
| World.Chunk.RaiseVertices | MuckReborn/include/world/Chunk.hpp:49-54 | the height pass |
| World.Chunk.Rebuild | MuckReborn/include/world/Chunk.hpp:35-61 | the terrain mesh, then the object gets the chunk texture and the mesh, uploads them and is registered (a taken name adds nothing); after the upload the trace, the next GL name, the object's VAO/VBO/EBO names and its generated textures are `PlainOutcome` of the state before, and the error queue is untouched |
| World.Chunk.Publish | MuckReborn/include/world/Chunk.hpp:56-60 | texture, upload and registration for the current mesh; the object's buffers, generated textures, the next GL name and the trace are `PlainOutcome` of the state before, the error queue is untouched |
| World.Chunk.UploadMesh | MuckReborn/include/world/Chunk.hpp:56-59 | the object gets the texture and the mesh and uploads them; buffers, generated textures, next GL name and trace as `PlainOutcome` says |
| World.Chunk.UploadObject | MuckReborn/include/world/Chunk.hpp:58 | a plain object's upload: buffers, generated textures, next GL name and trace as `PlainOutcome` says |
| World.Chunk.InitalizeChunk | MuckReborn/include/world/Chunk.hpp:24-33 | a plain object named after the position and placed there, then the first rebuild: fresh buffers VAO/VBO/EBO named `last`+1..+3, the chunk texture generated, `last`+4 names used, the trace as `PlainOutcome` says |
| World.Chunk.CreateObject | MuckReborn/include/world/Chunk.hpp:26-31 | the object, its name, its place and the noise source |
| Models.OrderVisitsMentioned | MuckReborn/include/rendering/Model.hpp:54-65 | the traversal visits exactly the meshes the tree mentions |
| Models.ChildrenOrderVisits | MuckReborn/include/rendering/Model.hpp:61-62 | the children's subtrees visit exactly what they mention |
| Models.PreOrder | MuckReborn/include/rendering/Model.hpp:54-65 | the node's own meshes open the traversal in their listed order, and child `i`'s whole subtree occupies the positions right after the meshes and the subtrees of the children before it |
| Models.OrderWithin | MuckReborn/include/rendering/Model.hpp:58-59 | every visited mesh exists |
| Models.ChildrenOrderWithin | MuckReborn/include/rendering/Model.hpp:61-62 | the same for the children's subtrees |
| Models.VerticesOfMesh | MuckReborn/include/rendering/Model.hpp:75-87 | one vertex per importer vertex at its position, with texture coordinates from channel 0, or (0, 0) without one |
| Models.FlattenAppend | MuckReborn/include/rendering/Model.hpp:89-95 | flattening is compatible with splitting the face list |
| Models.FlattenTriangles | MuckReborn/include/rendering/Model.hpp:89-95 | for triangles, index `3k + j` is corner `j` of face `k` |
| Models.FlattenWithin | MuckReborn/include/rendering/Model.hpp:89-95 | indices that named existing vertices still do |
| Models.FirstWithPath | MuckReborn/include/rendering/Model.hpp:133-141 | the first loaded texture with the path, or none exactly when no texture has it |
| Models.LoadPathsTake | MuckReborn/include/rendering/Model.hpp:127-148 | one more path extends the lookup |
| Models.LoadPathsAccounts | MuckReborn/include/rendering/Model.hpp:127-148 | each path is collected or added: found + added = paths, and the loaded list only grows |
| Models.AddedPathDiffers | MuckReborn/include/rendering/Model.hpp:144 | a raw path not starting with `assets/` never equals a stored asset path |
| Models.RawPathsNeverMatch | MuckReborn/include/rendering/Model.hpp:133-144 | with raw material paths the lookup never hits, so every path adds a new texture |
| Models.Added | MuckReborn/include/rendering/Model.hpp:144 | each added texture lives at the asset path of the material path |
| Models.LoadAllAppend | MuckReborn/include/rendering/Model.hpp:54-65 | loading two batches of meshes is loading both |
| Models.InsertAllFirst | MuckReborn/include/rendering/Model.hpp:110-111 | offered textures are filed under their names, and the first of a name wins |
| Models.NamesSnoc | MuckReborn/include/rendering/Model.hpp:110-111 | one more texture adds its name |
| Models.InsertAllNames | MuckReborn/include/rendering/Model.hpp:110-111 | the object holds exactly the names of the loaded textures |
| Models.RegisteredAfterStep | MuckReborn/include/rendering/Model.hpp:108-114 | one more mesh object is inserted under `mesh` |
| Models.RegisteredAfterAppend | MuckReborn/include/rendering/Model.hpp:108-114 | registering two batches is registering both |
| Models.OnlyFirstRegistered | MuckReborn/include/rendering/Model.hpp:108-114 | of all imported meshes only the first enters the registry |
| Models.BuiltPrefix | MuckReborn/include/rendering/Model.hpp:54-119 | a prefix of the objects was built from the same prefix of the meshes |
| Models.BuiltAt | MuckReborn/include/rendering/Model.hpp:67-119 | object `i` was built from mesh `i` with the textures loaded by then |
| Models.BuiltInit | MuckReborn/include/rendering/Model.hpp:54-119 | dropping the last object and its mesh |
| Models.BuiltSnoc | MuckReborn/include/rendering/Model.hpp:54-119 | one more object built from one more mesh |
| Models.BuiltAppend | MuckReborn/include/rendering/Model.hpp:54-119 | objects built from two batches in turn |
| Models.BuiltAppendLast | MuckReborn/include/rendering/Model.hpp:54-119 | the step of the append |
| Models.ImportedNothing | MuckReborn/include/rendering/Model.hpp:54-65 | importing no mesh changes nothing |
| Models.ImportedOne | MuckReborn/include/rendering/Model.hpp:67-119 | importing one mesh: one object, the material's textures loaded, and one registration |
| Models.ImportedMesh | MuckReborn/include/rendering/Model.hpp:58-59 | one more of the node's meshes |
| Models.ImportedAppend | MuckReborn/include/rendering/Model.hpp:54-65 | importing two batches in turn is importing both |
| Models.ChildrenSplit | MuckReborn/include/rendering/Model.hpp:61-62 | the first `c` children's subtrees, then the rest |
| Models.ImportedChild | MuckReborn/include/rendering/Model.hpp:61-62 | one more child's subtree |
| Models.ImportedChildren | MuckReborn/include/rendering/Model.hpp:54-65 | the node's meshes then all its children is the whole subtree |
| Models.BuildVertices | MuckReborn/include/rendering/Model.hpp:75-87 | the vertex loop builds the mesh's vertices |
| Models.FlattenFaces | MuckReborn/include/rendering/Model.hpp:89-95 | the face loop lays the faces' indices end to end |
| Models.Model.constructor | MuckReborn/include/rendering/Model.hpp:14-16 | no meshes, no loaded textures, gamma correction off |
| Models.Model.GenerateModel | MuckReborn/include/rendering/Model.hpp:18-25 | the model under the asset path of the domain is loaded; the GL error queue is left as it was |
| Models.Model.LoadModel | MuckReborn/include/rendering/Model.hpp:36-52 | a missing, incomplete or rootless scene logs a non-fatal error and changes nothing; otherwise the whole tree is imported from the root; the GL error queue is left as it was |
| Models.Model.ProcessBone | MuckReborn/include/rendering/Model.hpp:54-65 | the node's subtree is imported in pre-order; the GL error queue is left as it was |
| Models.Model.ProcessChildren | MuckReborn/include/rendering/Model.hpp:61-62 | each child's subtree in order; the GL error queue is left as it was |
| Models.Model.ProcessChild | MuckReborn/include/rendering/Model.hpp:62 | one child's subtree; the GL error queue is left as it was |
| Models.Model.ProcessMeshes | MuckReborn/include/rendering/Model.hpp:58-59 | each of the node's meshes in order; the GL error queue is left as it was |
| Models.Model.ProcessMeshAt | MuckReborn/include/rendering/Model.hpp:59 | one of the node's meshes; the GL error queue is left as it was |
| Models.Model.ProcessMesh | MuckReborn/include/rendering/Model.hpp:67-119 | an object named `mesh` with the mesh's vertices and flattened faces and every loaded texture, after the material's three slots are looked up; uploaded as `PlainOutcome` says (buffers, generated textures, next GL name, trace); inserted into the registry |
| Models.Model.CreateMeshObject | MuckReborn/include/rendering/Model.hpp:108-114 | the object is made, gets the loaded textures, uploads like a plain object (buffers, generated textures, next GL name and trace are `PlainOutcome` of the state before) and is registered |
| Models.Model.NewMeshObject | MuckReborn/include/rendering/Model.hpp:108-112 | a plain object under `mesh` holding the loaded textures |
| Models.Model.OfferLoaded | MuckReborn/include/rendering/Model.hpp:110-111 | every loaded texture is offered to the object in order |
| Models.Model.LoadTextures | MuckReborn/include/rendering/Model.hpp:121-150 | each path is looked up in the loaded list: a hit is collected, and a miss adds a new texture |
| Models.Model.LoadTexture | MuckReborn/include/rendering/Model.hpp:129-145 | one path: the first texture with that path is collected; with none, a new texture of the material's name and slot type is added |

## Left out

- **Foreign code.** The GL driver, the shader manager's internals, the
  logger's output and stb_image's decoding are left out. Each call to
  them appears only as a record in the trace. Float payloads of buffer
  uploads and matrix arithmetic are not computed.
- **Terrain noise.** The noise generator is a parameter of the chunk. Its
  algorithm is not part of this model.
- **Assimp.** The importer is a map from path to scene. Parsing files is
  not part of this model.
- **Memory management.** Deleting objects and `delete this` in the
  `CleanUp` of `Model` and `Chunk` are left out: the model has no heap
  deallocation. `Chunk::CleanUp` deletes the noise source and the `Chunk`
  itself; neither is modelled. The chunk's renderable object is released
  by `Renderer.Registry.CleanUpObjects`.
- **Window-system calls.** `InitInput`, `GetMouseButtonDown`,
  `GetMouseButtonUp` and `SetCursorMode` in `core/Input.hpp` only pass
  through to the window system.
- **Unused struct.** `LightingInstructions` is declared but never used.
- **Logger tracing.** The logger's function start and end lines are left
  out.
- **Callers.** `gameplay/Player.hpp` and `MuckReborn.cpp` are callers of
  the core and not part of this model. From `core/Settings.hpp` only the
  default domain is used.
- **Fatal errors.** A fatal logger error aborts the program. The model
  returns `None`, leaves the state unchanged and records the error.
- **Lighting shader lookup.** The lighting pass sets uniforms through
  `shaders["default"]`, a member objects do not have. The model sends
  them to the object's own shader.
- **Chunk float loops.** The loops step by 0.125f. This step is exact in
  binary, so the model counts eighths with integers.
- Renderer.Registry.PostShaderCalls: requires a non-empty registry or an
  empty queue. With requests queued and no objects, the source loops
  forever.
- Renderer.Registry.PostShaderCalls: an empty queue hit mid-sweep is
  modelled as stopping. In C++, `front()` on an empty queue is undefined
  behaviour.
- Models.Model.GenerateModel: states the imported objects, the loaded
  list and the registry, but not the GL trace or the next GL name after a
  successful import. Each object's upload is stated on
  `Models.Model.ProcessMesh`.
- Models.Model.LoadModel: on success, states the imported tree but not
  the GL trace or the next GL name.
- Models.Model.ProcessBone: states the imported subtree but not the GL
  trace or the next GL name.
- Models.Model.ProcessChildren: states the imported subtrees but not the
  GL trace or the next GL name.
- Models.Model.ProcessChild: states the imported subtree but not the GL
  trace or the next GL name.
- Models.Model.ProcessMeshes: states the imported meshes but not the GL
  trace or the next GL name.
- Models.Model.ProcessMeshAt: states the imported mesh but not the GL
  trace or the next GL name.
- Renderer.Registry.RequestShaderCall: the source queues `&value`, the
  address of a by-value parameter that dies when the call returns
  (Renderer.hpp:386-390); `PostShaderCalls` later reads through it. The
  model queues the value itself, tagged as a `UniformValue`.
- World.Chunk.GenerateQuad: the source calls `Vertex::Register` with
  three arguments (Chunk.hpp:65-68), but the only overload takes four
  (Renderer.hpp:30), so the call does not compile. The model reads the
  third argument as the texture coordinates and gives the vertex a zero
  normal.
- Models.Model.LoadTextures: models only the loaded list and the
  collected list. `ProcessMesh` never reads the collected list: it offers
  every loaded texture to the object.
- Renderables.RenderableObject.PostGLBufferCalls: the exception is a
  returned flag. Nothing after the throw runs, and the model does not
  unwind callers beyond `GenerateRawData`.
- Textures.GenerateTexture: image sizes are inputs, and pixel data is not
  modelled.
- Input.InputManager.UpdateInput: the set of pressed keys is a parameter.
  It stands for `glfwGetKey` on the window.
- Renderer.Registry.PostShaderCalls: requires `Complete()`, so no entry of the registry is null.
  `GetRenderableObject` (`operator[]`) enters null for a missing name;
  the source then dereferences that entry (Renderer.hpp:396-401), which is undefined
  behaviour, and the model excludes it.
- Renderer.Registry.DrawObject: requires `Complete()`, so no entry of the registry is null.
  `GetRenderableObject` (`operator[]`) enters null for a missing name;
  the source then dereferences that entry (Renderer.hpp:435-437), which is undefined
  behaviour, and the model excludes it.
- Renderer.Registry.RenderObjects: requires `Complete()`, so no entry of the registry is null.
  `GetRenderableObject` (`operator[]`) enters null for a missing name;
  the source then dereferences that entry (Renderer.hpp:435-437), which is undefined
  behaviour, and the model excludes it.
- Renderer.Registry.DrawAll: requires `Complete()`, so no entry of the registry is null.
  `GetRenderableObject` (`operator[]`) enters null for a missing name;
  the source then dereferences that entry (Renderer.hpp:435-437), which is undefined
  behaviour, and the model excludes it.
- Renderer.Registry.RenderStep: requires `Complete()`, so no entry of the registry is null.
  `GetRenderableObject` (`operator[]`) enters null for a missing name;
  the source then dereferences that entry (Renderer.hpp:435-437), which is undefined
  behaviour, and the model excludes it.
- Renderer.Registry.CleanUpObjects: requires `Complete()`, so no entry of the registry is null.
  `GetRenderableObject` (`operator[]`) enters null for a missing name;
  the source then dereferences that entry (Renderer.hpp:500-502), which is undefined
  behaviour, and the model excludes it.
- Lighting.LightingManager.PostLightingInstructions: requires `Complete()`, so no entry of the registry is null.
  `GetRenderableObject` (`operator[]`) enters null for a missing name;
  the source then dereferences that entry (LightingManager.hpp:114-116), which is undefined
  behaviour, and the model excludes it.
- Lighting.RegisterPointLight: takes every argument. The source's
  defaults for the last three (constant 0.09, linear 1.0, quadratic
  0.032) are not modelled; a caller passes them explicitly.
- Lighting.RegisterSpotLight: takes every argument. The source's defaults
  (constant 0.09, linear 1.0, quadratic 0.032, cutOff cos 12.5°,
  outerCutOff cos 15°) are not modelled; the cosines have no exact real
  value, and a caller passes them explicitly.
- **`DirectionalLight::Register`.** It returns its arguments in field
  order, which is the `DirectionalLight` constructor itself.
- TestCube.GenerateTestObject: renaming an object that the renderer's
  registry already holds leaves it under its old key. The registry's
  `Valid` requires every key to be its object's name, so the model's
  registry operations do not cover a registry after that rename.
