/** Renderable objects: the vertex record, the deferred GL pointer and
    buffer requests an object queues before its GPU data exists, and the
    object's own GPU lifecycle (`GenerateRawData`, `CleanUp`). */
module Renderables {
  import opened Strings
  import opened StdMap
  import opened Glm
  import opened Gl
  import opened Textures

  /** `DEFAULT_COLOR`. */
  const DefaultColor := Vec3(1.0, 1.0, 1.0)

  datatype Vertex = Vertex(position: Vec3, color: Vec3, normal: Vec3, textureCoords: Vec2)

  datatype GLPointerType = D | I

  /** A queued `glVertexAttrib*Pointer` request. `from` is the attribute
      slot, `to` the component count, `index` the slot enabled afterwards,
      `pointer` the raw offset or address. */
  datatype GLPointerCall = GLPointerCall(from: int, to: int, dataType: nat, normalized: bool, stride: int,
                                         pointer: nat, index: int, name: string, pointerType: GLPointerType)

  /** A default-initialised `GLPointerCall`. */
  const EmptyPointerCall := GLPointerCall(0, 0, 0, true, 0, 0, 0, "", D)

  /** A queued `glBufferData` request. `bind` names the buffer to bind
      first, `"VBO"` or `"EBO"`; `target` is the GL buffer target. */
  datatype GLBufferCall = GLBufferCall(bind: string, name: string, target: nat, size: nat, draw: nat, pointer: nat)

  /** The shader program kind an object draws with. `NoShader` is a
      value-initialised `ShaderObject{}`. */
  datatype ShaderType = NoShader | DefaultShader | ChunkShader

  datatype Transform = Transform(position: Vec3)

  /** `TRANSFORM_DEFAULT`: placed at the origin. */
  const DefaultTransform := Transform(Zero3)

  /** The handle stored under `key`, 0 when the slot is absent. */
  function Handle(buffers: map<string, nat>, key: string): nat
  {
    if key in buffers then buffers[key] else 0
  }

  /** The handle slots of a fresh object, all 0. */
  const InitialBuffers: map<string, nat> := map["VAO" := 0, "VBO" := 0, "EBO" := 0]

  // ----- Buffer uploads -----

  predicate KnownBind(c: GLBufferCall)
  {
    c.bind == "VBO" || c.bind == "EBO"
  }

  /** The bind and upload of one queued buffer request. */
  function BufferCallCalls(c: GLBufferCall, vbo: nat, ebo: nat): seq<GlCall>
  {
    [BindBuffer(c.target, if c.bind == "VBO" then vbo else ebo),
     BufferData(c.target, Bytes(c.size), Address(c.pointer), c.draw)]
  }

  /** What draining a buffer queue produces: the calls made and the part
      of the queue still there when the drain stopped. */
  datatype BufferDrain = BufferDrain(calls: seq<GlCall>, remaining: seq<GLBufferCall>)

  /** The calls of requests performed in queue order. */
  function KnownBufferCalls(queue: seq<GLBufferCall>, vbo: nat, ebo: nat): (r: seq<GlCall>)
    ensures |r| == 2 * |queue|
    decreases |queue|
  {
    if queue == [] then [] else BufferCallCalls(queue[0], vbo, ebo) + KnownBufferCalls(queue[1..], vbo, ebo)
  }

  /** Draining a queue front first: every request with a known bind is
      performed and popped; the first one with any other bind throws before
      it is performed or popped, so it and everything behind it stay. */
  function DrainBufferCalls(queue: seq<GLBufferCall>, vbo: nat, ebo: nat): (d: BufferDrain)
    ensures |d.remaining| <= |queue| && d.remaining == queue[|queue| - |d.remaining|..]
    decreases |queue|
  {
    if queue == [] || !KnownBind(queue[0]) then BufferDrain([], queue)
    else
      var rest := DrainBufferCalls(queue[1..], vbo, ebo);
      assert queue[1..][|queue| - 1 - |rest.remaining|..] == queue[|queue| - |rest.remaining|..];
      BufferDrain(BufferCallCalls(queue[0], vbo, ebo) + rest.calls, rest.remaining)
  }

  /** A drain stops only at an unknown bind: every request before the
      remaining part has a known bind, and the remaining part, if any,
      starts with an unknown bind. */
  lemma {:induction false} DrainedPrefixIsKnown(queue: seq<GLBufferCall>, vbo: nat, ebo: nat)
    ensures var d := DrainBufferCalls(queue, vbo, ebo);
      (forall i :: 0 <= i < |queue| - |d.remaining| ==> KnownBind(queue[i]))
      && (d.remaining == [] || !KnownBind(d.remaining[0]))
    decreases |queue|
  {
    if queue != [] && KnownBind(queue[0]) {
      var rest := queue[1..];
      DrainedPrefixIsKnown(rest, vbo, ebo);
      DrainBufferStep(queue, vbo, ebo);
      var m := |rest| - |DrainBufferCalls(rest, vbo, ebo).remaining|;
      forall i | 1 <= i < m + 1
        ensures KnownBind(queue[i])
      {
        assert queue[i] == rest[i - 1];
      }
    }
  }

  /** Every request before the remaining part has been performed, in queue
      order. */
  lemma {:induction false} DrainPerformsPrefix(queue: seq<GLBufferCall>, vbo: nat, ebo: nat)
    ensures var d := DrainBufferCalls(queue, vbo, ebo);
      d.calls == KnownBufferCalls(queue[..|queue| - |d.remaining|], vbo, ebo)
    decreases |queue|
  {
    if queue != [] && KnownBind(queue[0]) {
      DrainPerformsPrefix(queue[1..], vbo, ebo);
      var n := |queue| - |DrainBufferCalls(queue, vbo, ebo).remaining|;
      assert queue[..n][1..] == queue[1..][..n - 1];
    } else {
      assert queue[..0] == [];
    }
  }

  /** One step of the drain: a request with a known bind is performed and
      the rest of the queue drained after it. */
  lemma DrainBufferStep(queue: seq<GLBufferCall>, vbo: nat, ebo: nat)
    requires queue != [] && KnownBind(queue[0])
    ensures DrainBufferCalls(queue, vbo, ebo).calls
         == BufferCallCalls(queue[0], vbo, ebo) + DrainBufferCalls(queue[1..], vbo, ebo).calls
    ensures DrainBufferCalls(queue, vbo, ebo).remaining == DrainBufferCalls(queue[1..], vbo, ebo).remaining
  {
  }

  /** The upload of the object's whole vertex and index arrays, made when
      no buffer request is queued. */
  function DefaultUploadCalls(vbo: nat, ebo: nat, vertexCount: nat, indexCount: nat): seq<GlCall>
  {
    [BindBuffer(GL_ARRAY_BUFFER, vbo), BufferData(GL_ARRAY_BUFFER, VertexBytes(vertexCount), VertexData, GL_STATIC_DRAW),
     BindBuffer(GL_ELEMENT_ARRAY_BUFFER, ebo), BufferData(GL_ELEMENT_ARRAY_BUFFER, Bytes(4 * indexCount), IndexData, GL_STATIC_DRAW)]
  }

  /** `PostGLBufferCalls`: the default upload for an empty queue, the drain
      of the queue otherwise. */
  function BufferUpload(queue: seq<GLBufferCall>, vbo: nat, ebo: nat, vertexCount: nat, indexCount: nat): BufferDrain
  {
    if queue == [] then BufferDrain(DefaultUploadCalls(vbo, ebo, vertexCount, indexCount), [])
    else DrainBufferCalls(queue, vbo, ebo)
  }

  /** Some upload in `calls` reads the object's own vertex or index array. */
  predicate UploadsOwnArrays(calls: seq<GlCall>)
  {
    exists i :: 0 <= i < |calls| && calls[i].BufferData? && (calls[i].source.VertexData? || calls[i].source.IndexData?)
  }

  /** Queued requests upload only from the addresses they carry. */
  lemma {:induction false} KnownCallsUploadAddresses(queue: seq<GLBufferCall>, vbo: nat, ebo: nat)
    requires forall i :: 0 <= i < |queue| ==> KnownBind(queue[i])
    ensures !UploadsOwnArrays(KnownBufferCalls(queue, vbo, ebo))
    decreases |queue|
  {
    if queue != [] {
      KnownCallsUploadAddresses(queue[1..], vbo, ebo);
      var head := BufferCallCalls(queue[0], vbo, ebo);
      var rest := KnownBufferCalls(queue[1..], vbo, ebo);
      assert forall i :: 2 <= i < |head + rest| ==> (head + rest)[i] == rest[i - 2];
    }
  }

  /** The object's own arrays are uploaded exactly when no buffer request
      is queued: queued requests replace the default upload entirely. */
  lemma DefaultUploadIffNoRequests(queue: seq<GLBufferCall>, vbo: nat, ebo: nat, vertexCount: nat, indexCount: nat)
    ensures UploadsOwnArrays(BufferUpload(queue, vbo, ebo, vertexCount, indexCount).calls) <==> queue == []
  {
    if queue == [] {
      var calls := BufferUpload(queue, vbo, ebo, vertexCount, indexCount).calls;
      assert calls[1].BufferData? && calls[1].source.VertexData?;
    } else {
      var d := DrainBufferCalls(queue, vbo, ebo);
      DrainedPrefixIsKnown(queue, vbo, ebo);
      DrainPerformsPrefix(queue, vbo, ebo);
      KnownCallsUploadAddresses(queue[..|queue| - |d.remaining|], vbo, ebo);
    }
  }

  /** When the first request with an unknown bind is at `k`, exactly the `k`
      requests before it are performed, and the queue keeps it and all
      after it. */
  lemma {:induction false} DrainStopsAtUnknownBind(queue: seq<GLBufferCall>, k: nat, vbo: nat, ebo: nat)
    requires k < |queue| && !KnownBind(queue[k])
    requires forall i :: 0 <= i < k ==> KnownBind(queue[i])
    ensures DrainBufferCalls(queue, vbo, ebo).remaining == queue[k..]
    ensures |DrainBufferCalls(queue, vbo, ebo).calls| == 2 * k
    decreases k
  {
    if k > 0 {
      DrainStopsAtUnknownBind(queue[1..], k - 1, vbo, ebo);
      assert queue[1..][k - 1..] == queue[k..];
    }
  }

  /** A queue whose requests all have known binds is drained completely. */
  lemma {:induction false} DrainEmptiesKnownQueue(queue: seq<GLBufferCall>, vbo: nat, ebo: nat)
    requires forall i :: 0 <= i < |queue| ==> KnownBind(queue[i])
    ensures DrainBufferCalls(queue, vbo, ebo).remaining == []
    ensures DrainBufferCalls(queue, vbo, ebo).calls == KnownBufferCalls(queue, vbo, ebo)
    decreases |queue|
  {
    if queue != [] {
      DrainEmptiesKnownQueue(queue[1..], vbo, ebo);
    }
  }

  // ----- Attribute pointers -----

  /** The default attribute layout: slots 0 to 3 read position, color,
      normal and texture coordinates (3, 3, 3 and 2 floats, not normalised)
      from the interleaved vertex record, then the array buffer is unbound. */
  const DefaultAttributeCalls: seq<GlCall> := [
    VertexAttribPointer(0, 3, GL_FLOAT, false, VertexStride, FieldOffset(PositionField)), EnableVertexAttribArray(0),
    VertexAttribPointer(1, 3, GL_FLOAT, false, VertexStride, FieldOffset(ColorField)), EnableVertexAttribArray(1),
    VertexAttribPointer(2, 3, GL_FLOAT, false, VertexStride, FieldOffset(NormalField)), EnableVertexAttribArray(2),
    VertexAttribPointer(3, 2, GL_FLOAT, false, VertexStride, FieldOffset(TextureCoordsField)), EnableVertexAttribArray(3),
    BindBuffer(GL_ARRAY_BUFFER, 0)]

  /** One queued pointer request: the float or the integer variant by its
      pointer type, then its `index` slot is enabled. */
  function PointerCallCalls(c: GLPointerCall): (r: seq<GlCall>)
    ensures |r| == 2 && r[1] == EnableVertexAttribArray(c.index)
    ensures r[0].VertexAttribIPointer? <==> c.pointerType == I
    ensures r[0].VertexAttribPointer? <==> c.pointerType == D
    ensures (r[0].VertexAttribPointer? || r[0].VertexAttribIPointer?)
      && r[0].pointer == Address(c.pointer) && r[0].index == c.from && r[0].size == c.to
  {
    match c.pointerType
    case D => [VertexAttribPointer(c.from, c.to, c.dataType, c.normalized, StrideBytes(c.stride), Address(c.pointer)),
               EnableVertexAttribArray(c.index)]
    case I => [VertexAttribIPointer(c.from, c.to, c.dataType, StrideBytes(c.stride), Address(c.pointer)),
               EnableVertexAttribArray(c.index)]
  }

  /** The queue drained front first, each request once. */
  function DrainPointerCalls(queue: seq<GLPointerCall>): (r: seq<GlCall>)
    ensures |r| == 2 * |queue|
    decreases |queue|
  {
    if queue == [] then [] else PointerCallCalls(queue[0]) + DrainPointerCalls(queue[1..])
  }

  /** The `i`-th queued request makes calls `2i` and `2i + 1`. */
  lemma {:induction false} DrainPointerCallsInOrder(queue: seq<GLPointerCall>, i: nat)
    requires i < |queue|
    ensures DrainPointerCalls(queue)[2 * i..2 * i + 2] == PointerCallCalls(queue[i])
    decreases i
  {
    if i > 0 {
      DrainPointerCallsInOrder(queue[1..], i - 1);
      var rest := DrainPointerCalls(queue[1..]);
      assert DrainPointerCalls(queue)[2 * i..2 * i + 2] == rest[2 * (i - 1)..2 * (i - 1) + 2];
    }
  }

  /** `PostGLPointerCalls`: the default layout unless the object replaces
      it, then the queued requests. */
  function PointerSetupCalls(replaceDefaults: bool, queue: seq<GLPointerCall>): seq<GlCall>
  {
    (if replaceDefaults then [] else DefaultAttributeCalls) + DrainPointerCalls(queue)
  }

  /** Some attribute in `calls` reads a field of the vertex record. */
  predicate UsesDefaultLayout(calls: seq<GlCall>)
  {
    exists i :: 0 <= i < |calls| && calls[i].VertexAttribPointer? && calls[i].pointer.FieldOffset?
  }

  lemma {:induction false} QueuedPointersUseAddresses(queue: seq<GLPointerCall>)
    ensures !UsesDefaultLayout(DrainPointerCalls(queue))
    decreases |queue|
  {
    if queue != [] {
      QueuedPointersUseAddresses(queue[1..]);
      var head := PointerCallCalls(queue[0]);
      var rest := DrainPointerCalls(queue[1..]);
      assert forall i :: 2 <= i < |head + rest| ==> (head + rest)[i] == rest[i - 2];
    }
  }

  /** The default layout is set up exactly when the object does not ask to
      replace it; queued requests never read the vertex record's fields. */
  lemma DefaultLayoutIffNotReplaced(replaceDefaults: bool, queue: seq<GLPointerCall>)
    ensures UsesDefaultLayout(PointerSetupCalls(replaceDefaults, queue)) <==> !replaceDefaults
  {
    var calls := PointerSetupCalls(replaceDefaults, queue);
    if replaceDefaults {
      QueuedPointersUseAddresses(queue);
      assert calls == DrainPointerCalls(queue);
    } else {
      assert calls[0] == DefaultAttributeCalls[0];
    }
  }

  // ----- Textures of an object -----

  /** Every key listed is in `m`. */
  predicate AllIn<V>(keys: seq<string>, m: map<string, V>)
  {
    forall i :: 0 <= i < |keys| ==> keys[i] in m
  }

  /** The texture uploads for `keys` in order; the i-th (from 1) gets the
      GL name `start + i`. */
  function TexturesUpload(keys: seq<string>, m: map<string, Texture>, start: nat, images: map<string, Image>): seq<GlCall>
    requires AllIn(keys, m)
    decreases |keys|
  {
    if keys == [] then []
    else
      var t := m[keys[|keys| - 1]];
      TexturesUpload(keys[..|keys| - 1], m, start, images) + TextureUploadCalls(t, start + |keys|, ImageAt(images, t.path))
  }

  /** The texture map once the textures under `keys` have been generated in
      order. */
  function TexturesGenerated(keys: seq<string>, m: map<string, Texture>, start: nat, images: map<string, Image>): (r: map<string, Texture>)
    requires AllIn(keys, m)
    ensures r.Keys == m.Keys
    decreases |keys|
  {
    if keys == [] then m
    else
      var k := keys[|keys| - 1];
      TexturesGenerated(keys[..|keys| - 1], m, start, images)[k := Generated(m[k], start + |keys|, ImageAt(images, m[k].path))]
  }

  /** Generating one more texture, the one under `keys[i]`. */
  lemma TexturesStep(keys: seq<string>, i: nat, m: map<string, Texture>, start: nat, images: map<string, Image>)
    requires AllIn(keys, m) && i < |keys|
    ensures var t := m[keys[i]];
      TexturesGenerated(keys[..i + 1], m, start, images)
        == TexturesGenerated(keys[..i], m, start, images)[keys[i] := Generated(t, start + i + 1, ImageAt(images, t.path))]
      && TexturesUpload(keys[..i + 1], m, start, images)
        == TexturesUpload(keys[..i], m, start, images) + TextureUploadCalls(t, start + i + 1, ImageAt(images, t.path))
  {
    assert keys[..i + 1][..i] == keys[..i];
  }

  /** In a key sequence without repeats, the key at `i` is not among
      those before it. */
  lemma PrefixExcludes(keys: seq<string>, i: nat)
    requires forall a, b :: 0 <= a < b < |keys| ==> keys[a] != keys[b]
    requires i < |keys|
    ensures forall j :: 0 <= j < i ==> keys[..i][j] != keys[i]
  {
    assert forall j :: 0 <= j < i ==> keys[..i][j] == keys[j];
  }

  /** A texture whose key is not among `keys` is left as it was. */
  lemma {:induction false} TexturesGeneratedOutside(keys: seq<string>, m: map<string, Texture>, start: nat, images: map<string, Image>, k: string)
    requires AllIn(keys, m) && k in m
    requires forall i :: 0 <= i < |keys| ==> keys[i] != k
    ensures TexturesGenerated(keys, m, start, images)[k] == m[k]
    decreases |keys|
  {
    if keys != [] {
      TexturesGeneratedOutside(keys[..|keys| - 1], m, start, images, k);
    }
  }

  /** After `GenerateRawData`, the texture that comes `i`-th in name order
      (from 0) owns GL name `start + i + 1`, distinct from every other. */
  lemma {:induction false} TexturesGeneratedInOrder(keys: seq<string>, m: map<string, Texture>, start: nat, images: map<string, Image>, i: nat)
    requires AllIn(keys, m) && i < |keys|
    requires forall a, b :: 0 <= a < b < |keys| ==> keys[a] != keys[b]
    ensures TexturesGenerated(keys, m, start, images)[keys[i]]
         == Generated(m[keys[i]], start + i + 1, ImageAt(images, m[keys[i]].path))
    decreases |keys|
  {
    if i < |keys| - 1 {
      TexturesGeneratedInOrder(keys[..|keys| - 1], m, start, images, i);
    }
  }

  /** The calls that select the object's shader and point its sampler at
      unit 0, made only for objects that are not advanced. */
  function ShaderSetupCalls(name: string, advanced: bool): seq<GlCall>
  {
    if advanced then [] else [UseShader(name), SetUniform(name, "texture_diffuse1", IntValue(0))]
  }

  /** The calls `GenerateRawData` makes after a successful buffer upload:
      the attribute layout, the unbinding of the vertex array, the texture
      uploads (GL names from `firstTexture + 1` on) and the shader setup. */
  function RawDataTail(name: string, advanced: bool, replaceDefaults: bool, pointerQueue: seq<GLPointerCall>,
                       textures: map<string, Texture>, firstTexture: nat, images: map<string, Image>): seq<GlCall>
  {
    PointerSetupCalls(replaceDefaults, pointerQueue) + [BindVertexArray(0)]
      + TexturesUpload(Keys(textures), textures, firstTexture, images) + ShaderSetupCalls(name, advanced)
  }

  /** The foreign calls `CleanUp` makes. */
  function CleanUpCalls(name: string, buffers: map<string, nat>): seq<GlCall>
  {
    [DeleteVertexArray(Handle(buffers, "VAO")), DeleteBuffer(Handle(buffers, "VBO")),
     DeleteBuffer(Handle(buffers, "EBO")), CleanUpShader(name)]
  }

  /** The calls `GenerateRawData` makes before uploading buffers: the shader
      and three GL names from `first` on, and the binding of the vertex array. */
  function NameCalls(name: string, first: nat): seq<GlCall>
  {
    [GenerateShader(name), Gen(VertexArrayName, first), Gen(BufferName, first + 1), Gen(BufferName, first + 2),
     BindVertexArray(first)]
  }

  /** The calls `GenerateRawData` makes before and while uploading buffers. */
  function RawDataPrefix(name: string, first: nat, upload: BufferDrain): seq<GlCall>
  {
    NameCalls(name, first) + upload.calls
  }

  /** Everything `GenerateRawData` does for an object with nothing queued and
      the default attribute layout, when `last` is the last GL name handed
      out: names, the default upload of all `vertexCount` vertices and
      `indexCount` indices, the layout and the textures. */
  function PlainRawData(name: string, advanced: bool, vertexCount: nat, indexCount: nat,
                        textures: map<string, Texture>, last: nat, images: map<string, Image>): seq<GlCall>
  {
    NameCalls(name, last + 1) + DefaultUploadCalls(last + 2, last + 3, vertexCount, indexCount)
      + RawDataTail(name, advanced, false, [], textures, last + 3, images)
  }

  /** With nothing queued and the default layout, `GenerateRawData` makes
      exactly the plain calls and leaves nothing behind to throw on. */
  lemma PlainUpload(name: string, advanced: bool, vertexCount: nat, indexCount: nat,
                    textures: map<string, Texture>, last: nat, images: map<string, Image>)
    ensures BufferUpload([], last + 2, last + 3, vertexCount, indexCount).remaining == []
    ensures RawDataPrefix(name, last + 1, BufferUpload([], last + 2, last + 3, vertexCount, indexCount))
              + RawDataTail(name, advanced, false, [], textures, last + 3, images)
            == PlainRawData(name, advanced, vertexCount, indexCount, textures, last, images)
  {
  }

  /** What `GenerateRawData` leaves in an object and the context: whether
      it threw, the trace, the last GL name handed out, the buffer names,
      the two request queues and the textures. */
  datatype Upload = Upload(thrown: bool, trace: seq<GlCall>, nextName: nat, buffers: map<string, nat>,
                           bufferCalls: seq<GLBufferCall>, pointerCalls: seq<GLPointerCall>, textures: map<string, Texture>)

  /** The state `o` and `gl` are in after an upload that returned `thrown`. */
  function UploadState(o: RenderableObject, gl: Context, thrown: bool): Upload
    reads o, gl
  {
    Upload(thrown, gl.trace, gl.nextName, o.buffers, o.bufferCalls, o.pointerCalls, o.textures)
  }

  /** `GenerateRawData` for an object named `name` (advanced or not) with
      `vertexCount` vertices, `indexCount` indices, the layout flag
      `replaceDefaults` and the textures `textures`, when it held the
      buffers `buffers` and the queued requests `queue` and `pointerQueue`,
      the trace was `trace` and `last` was the last GL name handed out:
      three new names; then either the throw on an unknown buffer binding,
      with the rest of the buffer queue left and nothing else done, or the
      attribute layout, every texture and the sampler binding. */
  function UploadOutcome(name: string, advanced: bool, vertexCount: nat, indexCount: nat, replaceDefaults: bool,
                         images: map<string, Image>, textures: map<string, Texture>, buffers: map<string, nat>,
                         queue: seq<GLBufferCall>, pointerQueue: seq<GLPointerCall>, trace: seq<GlCall>, last: nat): Upload
  {
    var up := BufferUpload(queue, last + 2, last + 3, vertexCount, indexCount);
    var names := buffers["VAO" := last + 1]["VBO" := last + 2]["EBO" := last + 3];
    var prefix := trace + RawDataPrefix(name, last + 1, up);
    if up.remaining != [] then
      Upload(true, prefix, last + 3, names, up.remaining, pointerQueue, textures)
    else
      Upload(false, prefix + RawDataTail(name, advanced, replaceDefaults, pointerQueue, textures, last + 3, images),
             last + 3 + |textures|, names, [], [], TexturesGenerated(Keys(textures), textures, last + 3, images))
  }

  /** The upload of an object with nothing queued and the default layout:
      the plain calls, three buffer names and one GL name per texture. */
  function PlainOutcome(name: string, advanced: bool, vertexCount: nat, indexCount: nat, textures: map<string, Texture>,
                        buffers: map<string, nat>, trace: seq<GlCall>, last: nat, images: map<string, Image>): Upload
  {
    Upload(false, trace + PlainRawData(name, advanced, vertexCount, indexCount, textures, last, images),
           last + 3 + |textures|, buffers["VAO" := last + 1]["VBO" := last + 2]["EBO" := last + 3], [], [],
           TexturesGenerated(Keys(textures), textures, last + 3, images))
  }

  /** With nothing queued and the default layout, the upload does not
      throw and is the plain one. */
  lemma UploadedPlain(name: string, advanced: bool, vertexCount: nat, indexCount: nat, images: map<string, Image>,
                      textures: map<string, Texture>, buffers: map<string, nat>, trace: seq<GlCall>, last: nat)
    ensures UploadOutcome(name, advanced, vertexCount, indexCount, false, images, textures, buffers, [], [], trace, last)
         == PlainOutcome(name, advanced, vertexCount, indexCount, textures, buffers, trace, last, images)
  {
    PlainUpload(name, advanced, vertexCount, indexCount, textures, last, images);
    ConcatAssociative(trace, RawDataPrefix(name, last + 1, BufferUpload([], last + 2, last + 3, vertexCount, indexCount)),
                      RawDataTail(name, advanced, false, [], textures, last + 3, images));
  }

  /** Generates every texture of `m` in name order, on values. */
  method GenerateTextureMap(gl: Context, m: map<string, Texture>) returns (r: map<string, Texture>)
    modifies gl
    ensures var keys := Keys(m);
      r == TexturesGenerated(keys, m, old(gl.nextName), gl.images)
      && gl.trace == old(gl.trace) + TexturesUpload(keys, m, old(gl.nextName), gl.images)
    ensures gl.nextName == old(gl.nextName) + |m| && gl.errors == old(gl.errors)
  {
    var keys := Keys(m);
    KeysDistinct(m);
    var start := gl.nextName;
    r := m;
    for i := 0 to |keys|
      invariant r == TexturesGenerated(keys[..i], m, start, gl.images)
      invariant gl.trace == old(gl.trace) + TexturesUpload(keys[..i], m, start, gl.images)
      invariant gl.nextName == start + i && gl.errors == old(gl.errors)
    {
      r := GenerateNext(gl, keys, m, start, i, r, old(gl.trace));
    }
    assert keys[..|keys|] == keys;
  }

  /** One turn of the texture loop: the texture under `keys[i]`. */
  method GenerateNext(gl: Context, keys: seq<string>, m: map<string, Texture>, start: nat, i: nat,
                      r: map<string, Texture>, ghost base: seq<GlCall>) returns (next: map<string, Texture>)
    requires AllIn(keys, m) && i < |keys|
    requires forall a, b :: 0 <= a < b < |keys| ==> keys[a] != keys[b]
    requires r == TexturesGenerated(keys[..i], m, start, gl.images)
    requires gl.trace == base + TexturesUpload(keys[..i], m, start, gl.images)
    requires gl.nextName == start + i
    modifies gl
    ensures next == TexturesGenerated(keys[..i + 1], m, start, gl.images)
    ensures gl.trace == base + TexturesUpload(keys[..i + 1], m, start, gl.images)
    ensures gl.nextName == start + i + 1 && gl.errors == old(gl.errors)
  {
    var k := keys[i];
    PrefixExcludes(keys, i);
    TexturesGeneratedOutside(keys[..i], m, start, gl.images, k);
    var t := GenerateTexture(gl, r[k]);
    next := r[k := t];
    TexturesStep(keys, i, m, start, gl.images);
    ConcatAssociative(base, TexturesUpload(keys[..i], m, start, gl.images),
                      TextureUploadCalls(m[k], start + i + 1, ImageAt(gl.images, m[k].path)));
  }

  class RenderableObject {
    /** The object's name; only `GenerateTestObject` changes it. */
    var name: string
    var advanced: bool
    var shader: ShaderType
    var transform: Transform
    var pointerCalls: seq<GLPointerCall>
    var bufferCalls: seq<GLBufferCall>
    var textures: map<string, Texture>
    var completelyReplaceDefaultGLPointerCalls: bool
    var vertices: seq<Vertex>
    var indices: seq<nat>
    var buffers: map<string, nat>

    /** A default-initialised object named `name`. */
    constructor (name: string)
      ensures this.name == name && !advanced && shader == NoShader && transform == DefaultTransform
      ensures pointerCalls == [] && bufferCalls == [] && textures == map[]
      ensures !completelyReplaceDefaultGLPointerCalls && vertices == [] && indices == []
      ensures buffers == InitialBuffers
    {
      this.name := name;
      advanced := false;
      shader := NoShader;
      transform := DefaultTransform;
      pointerCalls := [];
      bufferCalls := [];
      textures := map[];
      completelyReplaceDefaultGLPointerCalls := false;
      vertices := [];
      indices := [];
      buffers := InitialBuffers;
    }

    /** `RenderableObject::Register`: a new object with the given geometry
        and settings and nothing queued. */
    static method Register(name: string, vertices: seq<Vertex>, indices: seq<nat>, advanced: bool,
                           completelyReplaceGLPointerCalls: bool, shader: ShaderType) returns (o: RenderableObject)
      ensures fresh(o)
      ensures o.name == name && o.vertices == vertices && o.indices == indices && o.advanced == advanced
      ensures o.completelyReplaceDefaultGLPointerCalls == completelyReplaceGLPointerCalls && o.shader == shader
      ensures o.transform == DefaultTransform && o.pointerCalls == [] && o.bufferCalls == []
      ensures o.textures == map[] && o.buffers == InitialBuffers
    {
      o := new RenderableObject(name);
      o.shader := shader;
      o.vertices := vertices;
      o.indices := indices;
      o.advanced := advanced;
      o.completelyReplaceDefaultGLPointerCalls := completelyReplaceGLPointerCalls;
    }

    method RequestGLPointerCall(call: GLPointerCall)
      modifies this`pointerCalls
      ensures pointerCalls == old(pointerCalls) + [call]
    {
      pointerCalls := pointerCalls + [call];
    }

    method RequestGLBufferCall(call: GLBufferCall)
      modifies this`bufferCalls
      ensures bufferCalls == old(bufferCalls) + [call]
    {
      bufferCalls := bufferCalls + [call];
    }

    /** Adds a texture under its name; an existing entry is kept. */
    method RegisterTexture(texture: Texture)
      modifies this`textures
      ensures textures == Insert(old(textures), texture.name, texture)
    {
      textures := Insert(textures, texture.name, texture);
    }

    method ReRegister(vertices: seq<Vertex>, indices: seq<nat>)
      modifies this`vertices, this`indices
      ensures this.vertices == vertices && this.indices == indices
    {
      this.vertices := vertices;
      this.indices := indices;
    }

    /** `PostGLBufferCalls`; `thrown` reports the exception an unknown bind
        raises. */
    method PostGLBufferCalls(gl: Context) returns (thrown: bool)
      modifies this`bufferCalls, gl
      ensures var up := BufferUpload(old(bufferCalls), Handle(buffers, "VBO"), Handle(buffers, "EBO"), |vertices|, |indices|);
        gl.trace == old(gl.trace) + up.calls && bufferCalls == up.remaining && thrown == (up.remaining != [])
      ensures gl.nextName == old(gl.nextName) && gl.errors == old(gl.errors)
    {
      var vbo := Handle(buffers, "VBO");
      var ebo := Handle(buffers, "EBO");
      if |bufferCalls| == 0 {
        gl.Calls(DefaultUploadCalls(vbo, ebo, |vertices|, |indices|));
        thrown := false;
      } else {
        thrown := DrainBufferQueue(gl, vbo, ebo);
      }
    }

    /** The drain loop of `PostGLBufferCalls`. */
    method DrainBufferQueue(gl: Context, vbo: nat, ebo: nat) returns (thrown: bool)
      modifies this`bufferCalls, gl
      ensures var d := DrainBufferCalls(old(bufferCalls), vbo, ebo);
        gl.trace == old(gl.trace) + d.calls && bufferCalls == d.remaining && thrown == (d.remaining != [])
      ensures gl.nextName == old(gl.nextName) && gl.errors == old(gl.errors)
    {
      ghost var total := gl.trace + DrainBufferCalls(bufferCalls, vbo, ebo).calls;
      ghost var left := DrainBufferCalls(bufferCalls, vbo, ebo).remaining;
      while bufferCalls != []
        invariant gl.trace + DrainBufferCalls(bufferCalls, vbo, ebo).calls == total
        invariant DrainBufferCalls(bufferCalls, vbo, ebo).remaining == left
        invariant gl.nextName == old(gl.nextName) && gl.errors == old(gl.errors)
        decreases |bufferCalls|
      {
        var call := bufferCalls[0];
        if !KnownBind(call) {
          return true;
        }
        ghost var t0 := gl.trace;
        DrainBufferStep(bufferCalls, vbo, ebo);
        ConcatAssociative(t0, BufferCallCalls(call, vbo, ebo), DrainBufferCalls(bufferCalls[1..], vbo, ebo).calls);
        PostBufferCall(gl, call, vbo, ebo);
        bufferCalls := bufferCalls[1..];
      }
      return false;
    }

    /** One turn of the drain loop: the request's buffer is bound to the
        object's VBO or EBO and its data uploaded. */
    static method PostBufferCall(gl: Context, call: GLBufferCall, vbo: nat, ebo: nat)
      modifies gl
      ensures gl.trace == old(gl.trace) + BufferCallCalls(call, vbo, ebo)
      ensures gl.nextName == old(gl.nextName) && gl.errors == old(gl.errors)
    {
      gl.Call(BindBuffer(call.target, if call.bind == "VBO" then vbo else ebo));
      gl.Call(BufferData(call.target, Bytes(call.size), Address(call.pointer), call.draw));
    }

    /** `PostGLPointerCalls`. */
    method PostGLPointerCalls(gl: Context)
      modifies this`pointerCalls, gl
      ensures gl.trace == old(gl.trace) + PointerSetupCalls(completelyReplaceDefaultGLPointerCalls, old(pointerCalls))
      ensures pointerCalls == []
      ensures gl.nextName == old(gl.nextName) && gl.errors == old(gl.errors)
    {
      if !completelyReplaceDefaultGLPointerCalls {
        gl.Calls(DefaultAttributeCalls);
      }
      ghost var total := old(gl.trace) + PointerSetupCalls(completelyReplaceDefaultGLPointerCalls, old(pointerCalls));
      ConcatAssociative(old(gl.trace), if completelyReplaceDefaultGLPointerCalls then [] else DefaultAttributeCalls, DrainPointerCalls(pointerCalls));
      while pointerCalls != []
        invariant gl.trace + DrainPointerCalls(pointerCalls) == total
        invariant gl.nextName == old(gl.nextName) && gl.errors == old(gl.errors)
        decreases |pointerCalls|
      {
        ghost var before := gl.trace;
        ghost var rest := DrainPointerCalls(pointerCalls[1..]);
        ghost var front := PointerCallCalls(pointerCalls[0]);
        PostPointerFront(gl);
        ConcatAssociative(before, front, rest);
      }
    }

    /** One iteration of `PostGLPointerCalls`: the front request is
        performed and popped. */
    method PostPointerFront(gl: Context)
      requires pointerCalls != []
      modifies this`pointerCalls, gl
      ensures pointerCalls == old(pointerCalls)[1..]
      ensures gl.trace == old(gl.trace) + PointerCallCalls(old(pointerCalls)[0])
      ensures gl.nextName == old(gl.nextName) && gl.errors == old(gl.errors)
    {
      var call := pointerCalls[0];
      match call.pointerType {
        case D => gl.Call(VertexAttribPointer(call.from, call.to, call.dataType, call.normalized, StrideBytes(call.stride), Address(call.pointer)));
        case I => gl.Call(VertexAttribIPointer(call.from, call.to, call.dataType, StrideBytes(call.stride), Address(call.pointer)));
      }
      gl.Call(EnableVertexAttribArray(call.index));
      pointerCalls := pointerCalls[1..];
    }

    /** The texture loop of `GenerateRawData`: every texture in name order
        gets its GL object and upload. */
    method GenerateTextures(gl: Context)
      modifies this`textures, gl
      ensures var keys := Keys(old(textures));
        textures == TexturesGenerated(keys, old(textures), old(gl.nextName), gl.images)
        && gl.trace == old(gl.trace) + TexturesUpload(keys, old(textures), old(gl.nextName), gl.images)
      ensures gl.nextName == old(gl.nextName) + |old(textures)| && gl.errors == old(gl.errors)
    {
      textures := GenerateTextureMap(gl, textures);
    }

    /** `GenerateRawData`: a shader and three fresh GL names, the buffer
        uploads; unless those throw, the attribute layout, every texture
        and, for a plain object, the sampler binding. */
    method GenerateRawData(gl: Context) returns (thrown: bool)
      modifies this`buffers, this`bufferCalls, this`pointerCalls, this`textures, gl
      ensures buffers == old(buffers)["VAO" := old(gl.nextName) + 1]["VBO" := old(gl.nextName) + 2]["EBO" := old(gl.nextName) + 3]
      ensures thrown == (BufferUpload(old(bufferCalls), old(gl.nextName) + 2, old(gl.nextName) + 3, |vertices|, |indices|).remaining != [])
      ensures thrown ==>
        gl.trace == old(gl.trace)
          + RawDataPrefix(name, old(gl.nextName) + 1, BufferUpload(old(bufferCalls), old(gl.nextName) + 2, old(gl.nextName) + 3, |vertices|, |indices|))
        && gl.nextName == old(gl.nextName) + 3
        && bufferCalls == BufferUpload(old(bufferCalls), old(gl.nextName) + 2, old(gl.nextName) + 3, |vertices|, |indices|).remaining
        && pointerCalls == old(pointerCalls) && textures == old(textures)
      ensures !thrown ==>
        gl.trace == old(gl.trace)
          + RawDataPrefix(name, old(gl.nextName) + 1, BufferUpload(old(bufferCalls), old(gl.nextName) + 2, old(gl.nextName) + 3, |vertices|, |indices|))
          + RawDataTail(name, advanced, completelyReplaceDefaultGLPointerCalls, old(pointerCalls), old(textures), old(gl.nextName) + 3, gl.images)
        && gl.nextName == old(gl.nextName) + 3 + |old(textures)|
        && bufferCalls == [] && pointerCalls == []
        && textures == TexturesGenerated(Keys(old(textures)), old(textures), old(gl.nextName) + 3, gl.images)
      ensures gl.errors == old(gl.errors)
    {
      ghost var t0 := gl.trace;
      var vbo, ebo := GenerateNames(gl);
      ghost var names := NameCalls(name, vbo - 1);
      ghost var up := BufferUpload(bufferCalls, vbo, ebo, |vertices|, |indices|);
      thrown := PostGLBufferCalls(gl);
      if !thrown {
        ghost var t1 := gl.trace;
        FinishRawData(gl);
        ConcatAssociative(t0 + names, up.calls, gl.trace[|t1|..]);
      }
      ConcatAssociative(t0, names, up.calls);
    }

    /** `GenerateRawData` on an object with nothing queued and the default
        layout, which cannot throw. */
    method GeneratePlainRawData(gl: Context)
      requires bufferCalls == [] && pointerCalls == [] && !completelyReplaceDefaultGLPointerCalls
      modifies this`buffers, this`bufferCalls, this`pointerCalls, this`textures, gl
      ensures UploadState(this, gl, false)
        == old(PlainOutcome(name, advanced, |vertices|, |indices|, textures, buffers, gl.trace, gl.nextName, gl.images))
      ensures gl.errors == old(gl.errors)
    {
      ghost var up := DefaultUploadCalls(gl.nextName + 2, gl.nextName + 3, |vertices|, |indices|);
      ghost var tail := RawDataTail(name, advanced, false, [], textures, gl.nextName + 3, gl.images);
      assert BufferUpload(bufferCalls, gl.nextName + 2, gl.nextName + 3, |vertices|, |indices|) == BufferDrain(up, []);
      var thrown := GenerateRawData(gl);
      assert !thrown;
      ConcatAssociative(old(gl.trace), NameCalls(name, old(gl.nextName) + 1) + up, tail);
    }

    /** The start of `GenerateRawData`: the shader and the three names. */
    method GenerateNames(gl: Context) returns (vbo: nat, ebo: nat)
      modifies this`buffers, gl
      ensures vbo == old(gl.nextName) + 2 && ebo == old(gl.nextName) + 3
      ensures buffers == old(buffers)["VAO" := old(gl.nextName) + 1]["VBO" := vbo]["EBO" := ebo]
      ensures Handle(buffers, "VBO") == vbo && Handle(buffers, "EBO") == ebo
      ensures gl.trace == old(gl.trace) + NameCalls(name, old(gl.nextName) + 1)
      ensures gl.nextName == ebo && gl.errors == old(gl.errors)
    {
      gl.Call(GenerateShader(name));
      var vao := gl.GenName(VertexArrayName);
      buffers := buffers["VAO" := vao];
      vbo := gl.GenName(BufferName);
      buffers := buffers["VBO" := vbo];
      ebo := gl.GenName(BufferName);
      buffers := buffers["EBO" := ebo];
      gl.Call(BindVertexArray(vao));
    }

    /** The rest of `GenerateRawData` once the buffers are uploaded. */
    method FinishRawData(gl: Context)
      modifies this`pointerCalls, this`textures, gl
      ensures gl.trace == old(gl.trace
        + RawDataTail(name, advanced, completelyReplaceDefaultGLPointerCalls, pointerCalls, textures, gl.nextName, gl.images))
      ensures pointerCalls == []
      ensures textures == old(TexturesGenerated(Keys(textures), textures, gl.nextName, gl.images))
      ensures gl.nextName == old(gl.nextName + |textures|) && gl.errors == old(gl.errors)
    {
      ghost var t0 := gl.trace;
      ghost var pointers := PointerSetupCalls(completelyReplaceDefaultGLPointerCalls, pointerCalls);
      ghost var uploads := TexturesUpload(Keys(textures), textures, gl.nextName, gl.images);
      var setup := ShaderSetupCalls(name, advanced);
      SetUpLayout(gl);
      GenerateTextures(gl);
      gl.Calls(setup);
      ConcatAssociative4(t0, pointers, [BindVertexArray(0)], uploads, setup);
    }

    /** The attribute layout of `GenerateRawData`, recorded in the vertex
        array, which is then unbound. */
    method SetUpLayout(gl: Context)
      modifies this`pointerCalls, gl
      ensures gl.trace == old(gl.trace) + PointerSetupCalls(completelyReplaceDefaultGLPointerCalls, old(pointerCalls)) + [BindVertexArray(0)]
      ensures pointerCalls == []
      ensures gl.nextName == old(gl.nextName) && gl.errors == old(gl.errors)
    {
      PostGLPointerCalls(gl);
      gl.Call(BindVertexArray(0));
    }

    /** `CleanUp`: the GL objects and the shader are released and the
        geometry and handle table cleared. */
    method CleanUp(gl: Context)
      modifies this`vertices, this`indices, this`buffers, gl
      ensures gl.trace == old(gl.trace) + CleanUpCalls(name, old(buffers))
      ensures vertices == [] && indices == [] && buffers == map[]
      ensures gl.nextName == old(gl.nextName) && gl.errors == old(gl.errors)
    {
      gl.Calls([DeleteVertexArray(Handle(buffers, "VAO")), DeleteBuffer(Handle(buffers, "VBO")), DeleteBuffer(Handle(buffers, "EBO"))]);
      vertices := [];
      indices := [];
      buffers := map[];
      gl.Call(CleanUpShader(name));
    }
  }
}
