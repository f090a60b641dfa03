/** The foreign side of the core — OpenGL, the shader objects, stb_image, the
    logger and the event bus — as an append-only trace of call records kept
    by a `Context`. Object names handed out by `glGen*` come from a counter,
    the codes `glGetError` reports and the images on disk are inputs the
    context is created with. */
module Gl {
  import opened Glm

  const GL_NO_ERROR: int := 0
  const GL_LINES: nat := 0x0001
  const GL_TRIANGLES: nat := 0x0004
  const GL_TEXTURE_2D: nat := 0x0DE1
  const GL_UNSIGNED_BYTE: nat := 0x1401
  const GL_UNSIGNED_INT: nat := 0x1405
  const GL_FLOAT: nat := 0x1406
  const GL_RED: nat := 0x1903
  const GL_RGB: nat := 0x1907
  const GL_RGBA: nat := 0x1908
  const GL_NEAREST: int := 0x2600
  const GL_TEXTURE_MAG_FILTER: nat := 0x2800
  const GL_TEXTURE_MIN_FILTER: nat := 0x2801
  const GL_TEXTURE_WRAP_S: nat := 0x2802
  const GL_TEXTURE_WRAP_T: nat := 0x2803
  const GL_REPEAT: int := 0x2901
  const GL_CLAMP_TO_EDGE: int := 0x812F
  const GL_TEXTURE0: nat := 0x84C0
  const GL_ARRAY_BUFFER: nat := 0x8892
  const GL_ELEMENT_ARRAY_BUFFER: nat := 0x8893
  const GL_STATIC_DRAW: nat := 0x88E4

  /** The fields of `Vertex`, whose `offsetof` the default attribute layout uses. */
  datatype VertexField = PositionField | ColorField | NormalField | TextureCoordsField

  /** What a `void*` handed to GL points at. */
  datatype DataSource =
    | VertexData                     // data.vertices.data()
    | IndexData                      // data.indices.data()
    | FieldOffset(field: VertexField) // (void*)offsetof(Vertex, field)
    | Address(address: nat)          // a caller-supplied pointer (0 is null)

  /** A byte count: `n * sizeof(Vertex)`, or a plain number of bytes. */
  datatype ByteSize = VertexBytes(vertexCount: nat) | Bytes(count: nat)

  /** An attribute stride: `sizeof(Vertex)`, or a caller-supplied value. */
  datatype Stride = VertexStride | StrideBytes(bytes: int)

  /** The value kinds a shader uniform can be set to (`ShaderObject::SetUniform`
      overloads), plus any other C++ type, remembered by its type name. */
  datatype UniformValue =
    | IntValue(i: int)
    | FloatValue(f: real)
    | BoolValue(b: bool)
    | Vec2Value(v2: Vec2)
    | Vec3Value(v3: Vec3)
    | Vec4Value(v4: Vec4)
    | Mat2Value(m2: Mat)
    | Mat3Value(m3: Mat)
    | Mat4Value(m4: Mat)
    | OtherValue(typeName: string)

  /** A C++ type as `typeid` identifies it: the nine types the shader
      dispatch recognises, or any other type, known by its name. */
  datatype TypeId =
    | IntType | FloatType | BoolType
    | Vec2Type | Vec3Type | Vec4Type
    | Mat2Type | Mat3Type | Mat4Type
    | OtherType(name: string)

  /** The type identity a dispatch on `typeid(T)` compares against one of
      the nine recognised types. */
  predicate Recognised(t: TypeId)
  {
    !t.OtherType?
  }

  /** `typeid(T)` of the value's C++ type. */
  function TypeOf(v: UniformValue): (r: TypeId)
    ensures Recognised(r) <==> !v.OtherValue?
  {
    match v
    case IntValue(_) => IntType
    case FloatValue(_) => FloatType
    case BoolValue(_) => BoolType
    case Vec2Value(_) => Vec2Type
    case Vec3Value(_) => Vec3Type
    case Vec4Value(_) => Vec4Type
    case Mat2Value(_) => Mat2Type
    case Mat3Value(_) => Mat3Type
    case Mat4Value(_) => Mat4Type
    case OtherValue(n) => OtherType(n)
  }

  /** Kinds of object name `glGen*` hands out. */
  datatype NameKind = VertexArrayName | BufferName | TextureName

  datatype Severity = Fatal | NonFatal

  /** A decoded image as stb_image reports it. */
  datatype Image = Image(width: int, height: int, channels: int)

  datatype ImageLoad = Loaded(image: Image) | LoadFailed

  /** One foreign call. Shader-object calls name the renderable object whose
      shader receives them. */
  datatype GlCall =
    | Gen(kind: NameKind, name: nat)
    | BindVertexArray(vao: nat)
    | BindBuffer(target: nat, buffer: nat)
    | BufferData(target: nat, byteSize: ByteSize, source: DataSource, usage: nat)
    | VertexAttribPointer(index: int, size: int, dataType: nat, normalized: bool, stride: Stride, pointer: DataSource)
    | VertexAttribIPointer(index: int, size: int, dataType: nat, stride: Stride, pointer: DataSource)
    | EnableVertexAttribArray(index: int)
    | DeleteVertexArray(vao: nat)
    | DeleteBuffer(buffer: nat)
    | ActiveTexture(textureUnit: nat)
    | BindTexture(target: nat, texture: nat)
    | TexParameter(target: nat, pname: nat, param: int)
    | SetFlipOnLoad(flip: bool)
    | LoadImage(path: string)
    | TexImage2D(target: nat, format: nat, width: int, height: int)
    | GenerateMipmap(target: nat)
    | FreeImage
    | GenerateShader(owner: string)
    | UseShader(owner: string)
    | SetUniform(owner: string, uniform: string, value: UniformValue)
    | CleanUpShader(owner: string)
    | DrawElements(mode: nat, count: nat)
    | GetError
    | LogError(severity: Severity)
    | RendererCleanupEvent

  /** What stb_image returns for a path: the image if the file is there. */
  function ImageAt(images: map<string, Image>, path: string): (r: ImageLoad)
    ensures r.Loaded? <==> path in images
  {
    if path in images then Loaded(images[path]) else LoadFailed
  }

  /** The code `glGetError` reports when `errors` are pending: the next one,
      or `GL_NO_ERROR` when none is. */
  function NextError(errors: seq<int>): int
  {
    if errors == [] then GL_NO_ERROR else errors[0]
  }

  function AfterGetError(errors: seq<int>): (r: seq<int>)
    ensures |r| == if errors == [] then 0 else |errors| - 1
  {
    if errors == [] then [] else errors[1..]
  }

  /** Regrouping a trace split in several parts. */
  lemma ConcatAssociative<T>(a: seq<T>, b: seq<T>, c: seq<T>)
    ensures a + b + c == a + (b + c)
  {
  }

  lemma ConcatAssociative4<T>(a: seq<T>, b: seq<T>, c: seq<T>, d: seq<T>, e: seq<T>)
    ensures a + b + c + d + e == a + (b + c + d + e)
  {
    ConcatAssociative(a, b, c);
    ConcatAssociative(a, b + c, d);
    ConcatAssociative(a, b + c + d, e);
  }

  /** A slice of a trace that lies in its first part. */
  lemma SliceInFront<T>(a: seq<T>, b: seq<T>, i: nat, j: nat)
    requires i <= j <= |a|
    ensures (a + b)[i..j] == a[i..j]
  {
    assert forall k :: 0 <= k < j - i ==> (a + b)[i..j][k] == a[i + k];
  }

  /** The slice of a trace that is exactly its second part. */
  lemma SliceInBack<T>(a: seq<T>, b: seq<T>, i: nat, j: nat)
    requires i == |a| && j == |a| + |b|
    ensures (a + b)[i..j] == b
  {
    assert forall k :: 0 <= k < |b| ==> (a + b)[i..j][k] == b[k];
  }

  /** Dropping both ends of a sequence, in either order. */
  lemma TakeOneMore<T>(s: seq<T>, i: nat)
    requires i < |s|
    ensures s[..i + 1] == s[..i] + [s[i]]
  {
  }

  lemma InitLast<T>(s: seq<T>)
    requires s != []
    ensures s[..|s| - 1] + [s[|s| - 1]] == s
  {
  }

  lemma TakeTake<T>(s: seq<T>, n: nat, m: nat)
    requires m <= n <= |s|
    ensures s[..n][..m] == s[..m]
  {
  }

  lemma TakeAll<T>(s: seq<T>)
    ensures s[..|s|] == s
  {
  }

  lemma TrimEnds<T>(s: seq<T>)
    requires |s| >= 2
    ensures s[..|s| - 1][1..] == s[1..][..|s[1..]| - 1]
  {
  }

  class Context {
    /** Every foreign call made so far, oldest first. */
    var trace: seq<GlCall>
    /** The last object name handed out; names start at 1, 0 is "no object". */
    var nextName: nat
    /** Error codes the driver will report, in order. */
    var errors: seq<int>
    /** The image files on disk. */
    const images: map<string, Image>

    constructor (images: map<string, Image>, errors: seq<int>)
      ensures trace == [] && nextName == 0
      ensures this.images == images && this.errors == errors
    {
      this.trace := [];
      this.nextName := 0;
      this.errors := errors;
      this.images := images;
    }

    method Call(c: GlCall)
      modifies this
      ensures trace == old(trace) + [c]
      ensures nextName == old(nextName) && errors == old(errors)
    {
      trace := trace + [c];
    }

    /** Several calls in a row. */
    method Calls(cs: seq<GlCall>)
      modifies this
      ensures trace == old(trace) + cs
      ensures nextName == old(nextName) && errors == old(errors)
    {
      trace := trace + cs;
    }

    /** `glGen*(1, &name)`: a name never handed out before. */
    method GenName(kind: NameKind) returns (name: nat)
      modifies this
      ensures name == old(nextName) + 1 && nextName == name
      ensures trace == old(trace) + [Gen(kind, name)]
      ensures errors == old(errors)
    {
      name := nextName + 1;
      nextName := name;
      trace := trace + [Gen(kind, name)];
    }

    method GetErrorCode() returns (e: int)
      modifies this
      ensures e == NextError(old(errors)) && errors == AfterGetError(old(errors))
      ensures trace == old(trace) + [GetError]
      ensures nextName == old(nextName)
    {
      e := NextError(errors);
      errors := AfterGetError(errors);
      trace := trace + [GetError];
    }

    /** `stbi_load(path, ...)`. */
    method Load(path: string) returns (r: ImageLoad)
      modifies this
      ensures r == ImageAt(images, path)
      ensures trace == old(trace) + [LoadImage(path)]
      ensures nextName == old(nextName) && errors == old(errors)
    {
      r := ImageAt(images, path);
      trace := trace + [LoadImage(path)];
    }
  }
}
