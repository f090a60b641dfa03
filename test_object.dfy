/** `RenderableObject::GenerateTestObject`: a half-unit cube of six faces,
    four vertices and two triangles each, drawn by the default shader with
    the test texture. */
module TestCube {
  import opened Glm
  import opened Gl
  import opened Textures
  import opened StdMap
  import opened Renderables

  const TestObjectName: string := "testObject"
  const TestTexture: string := "test_texture"

  /** One vertex of the cube as the source builds it. `Vertex::Register`
      takes position, colour, normal and texture coordinates in that order,
      and the cube passes the face direction second and `DEFAULT_COLOR`
      third, so the direction lands in `color` and the normal is white. */
  function CubeVertex(position: Vec3, direction: Vec3, uv: Vec2): (v: Vertex)
    ensures v.position == position && v.color == direction && v.normal == DefaultColor && v.textureCoords == uv
  {
    Vertex(position, direction, DefaultColor, uv)
  }

  /** The four vertices of face `k`, in the order the source lists them:
      back, front, left, right, top, bottom. */
  function FaceVertices(k: nat): (r: seq<Vertex>)
    requires k < 6
    ensures |r| == 4
  {
    match k
    case 0 =>
      [CubeVertex(Vec3(0.0, 0.0, 0.0), Vec3(0.0, 0.0, -1.0), Vec2(0.0, 0.0)),
       CubeVertex(Vec3(0.0, 0.5, 0.0), Vec3(0.0, 0.0, -1.0), Vec2(1.0, 0.0)),
       CubeVertex(Vec3(0.5, 0.5, 0.0), Vec3(0.0, 0.0, -1.0), Vec2(1.0, 1.0)),
       CubeVertex(Vec3(0.5, 0.0, 0.0), Vec3(0.0, 0.0, -1.0), Vec2(0.0, 1.0))]
    case 1 =>
      [CubeVertex(Vec3(0.0, 0.0, 0.5), Vec3(0.0, 0.0, 1.0), Vec2(0.0, 0.0)),
       CubeVertex(Vec3(0.0, 0.5, 0.5), Vec3(0.0, 0.0, 1.0), Vec2(1.0, 0.0)),
       CubeVertex(Vec3(0.5, 0.5, 0.5), Vec3(0.0, 0.0, 1.0), Vec2(1.0, 1.0)),
       CubeVertex(Vec3(0.5, 0.0, 0.5), Vec3(0.0, 0.0, 1.0), Vec2(0.0, 1.0))]
    case 2 =>
      [CubeVertex(Vec3(0.0, 0.0, 0.0), Vec3(-1.0, 0.0, 0.0), Vec2(0.0, 0.0)),
       CubeVertex(Vec3(0.0, 0.5, 0.0), Vec3(-1.0, 0.0, 0.0), Vec2(1.0, 0.0)),
       CubeVertex(Vec3(0.0, 0.5, 0.5), Vec3(-1.0, 0.0, 0.0), Vec2(1.0, 1.0)),
       CubeVertex(Vec3(0.0, 0.0, 0.5), Vec3(-1.0, 0.0, 0.0), Vec2(0.0, 1.0))]
    case 3 =>
      [CubeVertex(Vec3(0.5, 0.0, 0.0), Vec3(1.0, 0.0, 0.0), Vec2(0.0, 0.0)),
       CubeVertex(Vec3(0.5, 0.5, 0.0), Vec3(1.0, 0.0, 0.0), Vec2(1.0, 0.0)),
       CubeVertex(Vec3(0.5, 0.5, 0.5), Vec3(1.0, 0.0, 0.0), Vec2(1.0, 1.0)),
       CubeVertex(Vec3(0.5, 0.0, 0.5), Vec3(1.0, 0.0, 0.0), Vec2(0.0, 1.0))]
    case 4 =>
      [CubeVertex(Vec3(0.0, 0.5, 0.0), Vec3(0.0, -1.0, 0.0), Vec2(0.0, 0.0)),
       CubeVertex(Vec3(0.0, 0.5, 0.5), Vec3(0.0, -1.0, 0.0), Vec2(1.0, 0.0)),
       CubeVertex(Vec3(0.5, 0.5, 0.5), Vec3(0.0, -1.0, 0.0), Vec2(1.0, 1.0)),
       CubeVertex(Vec3(0.5, 0.5, 0.0), Vec3(0.0, -1.0, 0.0), Vec2(0.0, 1.0))]
    case _ =>
      [CubeVertex(Vec3(0.0, 0.0, 0.0), Vec3(0.0, 1.0, 0.0), Vec2(0.0, 0.0)),
       CubeVertex(Vec3(0.0, 0.0, 0.5), Vec3(0.0, 1.0, 0.0), Vec2(1.0, 0.0)),
       CubeVertex(Vec3(0.5, 0.0, 0.5), Vec3(0.0, 1.0, 0.0), Vec2(1.0, 1.0)),
       CubeVertex(Vec3(0.5, 0.0, 0.0), Vec3(0.0, 1.0, 0.0), Vec2(0.0, 1.0))]
  }

  /** The six indices of face `k`: its two triangles. */
  function FaceIndices(k: nat): (r: seq<nat>)
    requires k < 6
    ensures |r| == 6
  {
    match k
    case 0 => [0, 1, 3, 1, 2, 3]
    case 1 => [7, 6, 5, 7, 5, 4]
    case 2 => [11, 10, 9, 11, 9, 8]
    case 3 => [12, 13, 15, 13, 14, 15]
    case 4 => [16, 17, 19, 17, 18, 19]
    case _ => [23, 22, 21, 23, 21, 20]
  }

  /** The 24 vertices of `GenerateTestObject`, face after face: vertex `i`
      is corner `i % 4` of face `i / 4`. */
  function TestVertices(): (r: seq<Vertex>)
    ensures |r| == 24
  {
    seq(24, i requires 0 <= i < 24 => FaceVertices(i / 4)[i % 4])
  }

  /** The 36 indices of `GenerateTestObject`, face after face. */
  function TestIndices(): (r: seq<nat>)
    ensures |r| == 36
  {
    seq(36, i requires 0 <= i < 36 => FaceIndices(i / 6)[i % 6])
  }

  /** One of the six unit vectors along the axes. */
  predicate UnitAxis(d: Vec3)
  {
    d in {Vec3(1.0, 0.0, 0.0), Vec3(-1.0, 0.0, 0.0), Vec3(0.0, 1.0, 0.0),
          Vec3(0.0, -1.0, 0.0), Vec3(0.0, 0.0, 1.0), Vec3(0.0, 0.0, -1.0)}
  }

  /** The coordinate of `p` along the axis of `d`. */
  function Along(d: Vec3, p: Vec3): real
  {
    if d.x != 0.0 then p.x else if d.y != 0.0 then p.y else p.z
  }

  predicate Distinct3(a: nat, b: nat, c: nat)
  {
    a != b && b != c && a != c
  }

  /** Face `k`'s block of the index list is its two triangles, and its
      block of the vertex list its four vertices. */
  lemma FaceBlocks(k: nat)
    requires k < 6
    ensures TestIndices()[6 * k..6 * k + 6] == FaceIndices(k)
    ensures TestVertices()[4 * k..4 * k + 4] == FaceVertices(k)
  {
    forall c | 0 <= c < 6
      ensures TestIndices()[6 * k..6 * k + 6][c] == FaceIndices(k)[c]
    {
      assert (6 * k + c) / 6 == k && (6 * k + c) % 6 == c;
    }
    forall c | 0 <= c < 4
      ensures TestVertices()[4 * k..4 * k + 4][c] == FaceVertices(k)[c]
    {
      assert (4 * k + c) / 4 == k && (4 * k + c) % 4 == c;
    }
  }

  /** Face `k`'s two triangles use only its own four vertices, use each of
      them, and neither triangle repeats a vertex. */
  lemma FaceTriangles(k: nat)
    requires k < 6
    ensures forall i :: 0 <= i < 6 ==> 4 * k <= FaceIndices(k)[i] < 4 * k + 4
    ensures forall c :: 4 * k <= c < 4 * k + 4 ==> c in FaceIndices(k)
    ensures var f := FaceIndices(k); Distinct3(f[0], f[1], f[2]) && Distinct3(f[3], f[4], f[5])
  {
    var f := FaceIndices(k);
    match k
    case 0 => assert f == [0, 1, 3, 1, 2, 3];
    case 1 => assert f == [7, 6, 5, 7, 5, 4];
    case 2 => assert f == [11, 10, 9, 11, 9, 8];
    case 3 => assert f == [12, 13, 15, 13, 14, 15];
    case 4 => assert f == [16, 17, 19, 17, 18, 19];
    case 5 => assert f == [23, 22, 21, 23, 21, 20];
  }

  /** Every index names one of the 24 vertices. */
  lemma IndicesInRange(i: nat)
    requires i < 36
    ensures TestIndices()[i] < |TestVertices()|
  {
    var k := i / 6;
    FaceTriangles(k);
    assert TestIndices()[i] == FaceIndices(k)[i % 6];
  }

  /** The four vertices of a face carry one direction, which is a unit
      axis vector, and the white normal, and lie in one plane across that
      axis on corners of the cube `[0, 0.5]^3`; their texture coordinates
      go round the unit square. */
  predicate FlatFace(f: seq<Vertex>)
    requires |f| == 4
  {
    var d := f[0].color;
    UnitAxis(d)
    && (forall c :: 0 <= c < 4 ==>
      f[c].color == d && f[c].normal == DefaultColor
      && Along(d, f[c].position) == Along(d, f[0].position)
      && f[c].position.x in {0.0, 0.5} && f[c].position.y in {0.0, 0.5} && f[c].position.z in {0.0, 0.5})
    && f[0].textureCoords == Vec2(0.0, 0.0) && f[1].textureCoords == Vec2(1.0, 0.0)
    && f[2].textureCoords == Vec2(1.0, 1.0) && f[3].textureCoords == Vec2(0.0, 1.0)
  }

  /** Every face of the cube is flat and faces along its direction. */
  lemma FaceIsFlat(k: nat)
    requires k < 6
    ensures FlatFace(FaceVertices(k))
  {
    if k == 0 {
      assert FlatFace(FaceVertices(0));
    } else if k == 1 {
      assert FlatFace(FaceVertices(1));
    } else if k == 2 {
      assert FlatFace(FaceVertices(2));
    } else if k == 3 {
      assert FlatFace(FaceVertices(3));
    } else if k == 4 {
      assert FlatFace(FaceVertices(4));
    } else {
      assert k == 5;
      assert FlatFace(FaceVertices(5));
    }
  }

  /** `GenerateTestObject` on the object `o`: it is renamed `testObject`,
      made plain, given the default shader and transform, gets the test
      texture (created empty in the texture registry when it is absent; a
      texture `o` already holds under the same name is kept) and the cube,
      and `GenerateRawData` then uploads it together with whatever `o` still
      had queued and with the attribute-layout flag it had. */
  method GenerateTestObject(o: RenderableObject, gl: Context, tm: TextureManager) returns (thrown: bool)
    modifies o`name, o`advanced, o`shader, o`transform, o`textures, o`vertices, o`indices,
             o`buffers, o`bufferCalls, o`pointerCalls, gl, tm`registeredTextures
    ensures o.name == TestObjectName && !o.advanced && o.shader == DefaultShader && o.transform == DefaultTransform
    ensures o.vertices == TestVertices() && o.indices == TestIndices()
    ensures tm.registeredTextures == Subscript(old(tm.registeredTextures), TestTexture, EmptyTexture)
    ensures var t := tm.registeredTextures[TestTexture];
      UploadState(o, gl, thrown)
      == UploadOutcome(o.name, o.advanced, |o.vertices|, |o.indices|, o.completelyReplaceDefaultGLPointerCalls, gl.images,
                       Insert(old(o.textures), t.name, t), old(o.buffers), old(o.bufferCalls), old(o.pointerCalls),
                       old(gl.trace), old(gl.nextName))
    ensures gl.errors == old(gl.errors)
  {
    var t := PrepareTestObject(o, tm);
    thrown := UploadTestObject(o, gl);
  }

  /** The settings `GenerateTestObject` gives `o` before the upload: the
      name, plain drawing, the default shader and transform, the test
      texture `t` and the cube. */
  method PrepareTestObject(o: RenderableObject, tm: TextureManager) returns (t: Texture)
    modifies o`name, o`advanced, o`shader, o`transform, o`textures, o`vertices, o`indices, tm`registeredTextures
    ensures o.name == TestObjectName && !o.advanced && o.shader == DefaultShader && o.transform == DefaultTransform
    ensures o.vertices == TestVertices() && o.indices == TestIndices()
    ensures tm.registeredTextures == Subscript(old(tm.registeredTextures), TestTexture, EmptyTexture)
    ensures t == tm.registeredTextures[TestTexture] && o.textures == Insert(old(o.textures), t.name, t)
  {
    o.name := TestObjectName;
    o.advanced := false;
    o.transform := DefaultTransform;
    o.shader := DefaultShader;
    t := tm.GetTexture(TestTexture);
    o.RegisterTexture(t);
    o.ReRegister(TestVertices(), TestIndices());
  }

  /** The end of `GenerateTestObject`: `GenerateRawData` on the prepared
      object, stated as its outcome. */
  method UploadTestObject(o: RenderableObject, gl: Context) returns (thrown: bool)
    modifies o`buffers, o`bufferCalls, o`pointerCalls, o`textures, gl
    ensures o.name == old(o.name) && o.advanced == old(o.advanced)
    ensures o.shader == old(o.shader) && o.transform == old(o.transform)
    ensures o.vertices == old(o.vertices) && o.indices == old(o.indices)
    ensures UploadState(o, gl, thrown)
      == UploadOutcome(o.name, o.advanced, |o.vertices|, |o.indices|, o.completelyReplaceDefaultGLPointerCalls, gl.images,
                       old(o.textures), old(o.buffers), old(o.bufferCalls), old(o.pointerCalls), old(gl.trace), old(gl.nextName))
    ensures gl.errors == old(gl.errors)
  {
    thrown := o.GenerateRawData(gl);
  }
}
