/** The terrain chunk: a square of 128 by 128 quads, one eighth of a unit
    wide, raised by a noise function and registered with the renderer as
    one object. The mesher's float loops step by exactly 1/8, so they are
    written over integer counts of eighths. */
module World {
  import opened Wrappers
  import opened Strings
  import opened StdMap
  import opened Glm
  import opened Gl
  import opened Textures
  import opened Renderables
  import opened Renderer

  /** `CHUNK_SIZE`: the side of a chunk in world units. */
  const ChunkSize: nat := 16

  /** Quads along one side: the side in steps of 1/8. */
  const GridSide: nat := ChunkSize * 8

  const QuadCount: nat := GridSide * GridSide

  /** The normal of every terrain vertex. `GenerateQuad` passes no normal
      to `Vertex::Register`, which takes one; the model uses zero. */
  const DefaultNormal := Zero3

  /** The height map's scale and offset. */
  const Scale: real := 1.0
  const Offset: real := 0.0

  /** The texture every chunk requests. */
  const ChunkTexture: string := "test_texture"

  /** A `glm::ivec3` chunk position. */
  datatype ChunkPosition = ChunkPosition(x: int, y: int, z: int)

  /** The name a chunk's object is registered under,
      `Chunk(<x>, <y>, <z>)` (grouped from the right; the string is the
      same). */
  function ChunkName(p: ChunkPosition): string
  {
    "Chunk(" + (IntToString(p.x) + (", " + (IntToString(p.y) + (", " + (IntToString(p.z) + ")")))))
  }

  /** The four corners `GenerateQuad` adds for a quad with origin `p`: one
      eighth above `p`, going round the quad with the texture coordinates
      (0,0), (0,1), (1,0), (1,1). */
  function QuadVertices(p: Vec3): seq<Vertex>
  {
    [Vertex(Vec3(0.0 + p.x, 0.125 + p.y, 0.0 + p.z), DefaultColor, DefaultNormal, Vec2(0.0, 0.0)),
     Vertex(Vec3(0.0 + p.x, 0.125 + p.y, 0.125 + p.z), DefaultColor, DefaultNormal, Vec2(0.0, 1.0)),
     Vertex(Vec3(0.125 + p.x, 0.125 + p.y, 0.125 + p.z), DefaultColor, DefaultNormal, Vec2(1.0, 0.0)),
     Vertex(Vec3(0.125 + p.x, 0.125 + p.y, 0.0 + p.z), DefaultColor, DefaultNormal, Vec2(1.0, 1.0))]
  }

  /** The two triangles of a quad whose first corner is vertex `k`. */
  function QuadIndices(k: nat): seq<nat>
  {
    [k, 1 + k, 3 + k, 3 + k, 1 + k, 2 + k]
  }

  /** The origin of quad number `q`: x advances in the outer loop, z in the
      inner one. */
  function Origin(q: nat): Vec3
  {
    Vec3((q / GridSide) as real / 8.0, 0.0, (q % GridSide) as real / 8.0)
  }

  /** The corners of the first `n` quads. */
  function GridVertices(n: nat): (r: seq<Vertex>)
    ensures |r| == 4 * n
  {
    if n == 0 then [] else GridVertices(n - 1) + QuadVertices(Origin(n - 1))
  }

  /** The indices of the first `n` quads. */
  function GridIndices(n: nat): (r: seq<nat>)
    ensures |r| == 6 * n
  {
    if n == 0 then [] else GridIndices(n - 1) + QuadIndices(4 * (n - 1))
  }

  /** A vertex lifted to the height the noise gives at its x and z. */
  function Lifted(v: Vertex, noise: (real, real) -> real): Vertex
  {
    v.(position := v.position.(y := noise(v.position.x, v.position.z) * Scale + Offset))
  }

  /** The height pass: only each vertex's y changes, to the noise at its x
      and z, so vertices that share x and z end up at the same height. */
  function Heightened(vs: seq<Vertex>, noise: (real, real) -> real): (r: seq<Vertex>)
    ensures |r| == |vs|
    ensures forall k :: 0 <= k < |vs| ==>
      r[k].position.x == vs[k].position.x && r[k].position.z == vs[k].position.z
      && r[k].position.y == noise(vs[k].position.x, vs[k].position.z) * Scale + Offset
      && r[k].color == vs[k].color && r[k].normal == vs[k].normal && r[k].textureCoords == vs[k].textureCoords
    ensures forall a, b ::
      0 <= a < |vs| && 0 <= b < |vs| && vs[a].position.x == vs[b].position.x && vs[a].position.z == vs[b].position.z
      ==> r[a].position == r[b].position
  {
    seq(|vs|, k requires 0 <= k < |vs| => Lifted(vs[k], noise))
  }

  /** The finished terrain mesh. */
  function Terrain(noise: (real, real) -> real): (r: seq<Vertex>)
    ensures |r| == 65536
  {
    Heightened(GridVertices(QuadCount), noise)
  }

  // ---------------------------------------------------------------------
  // The grid

  /** Every index names one of the preceding quads' corners. */
  lemma {:induction false} GridIndicesInRange(n: nat)
    ensures forall k :: 0 <= k < |GridIndices(n)| ==> GridIndices(n)[k] < |GridVertices(n)|
  {
    if n > 0 {
      GridIndicesInRange(n - 1);
      var front := GridIndices(n - 1);
      assert GridIndices(n) == front + QuadIndices(4 * (n - 1));
      forall k | 0 <= k < |GridIndices(n)|
        ensures GridIndices(n)[k] < 4 * n
      {
        if k < |front| {
          assert GridIndices(n)[k] == front[k];
        }
      }
    }
  }

  /** Quad `q` occupies vertices `4q .. 4q + 3` and indices `6q .. 6q + 5`,
      and its triangles use only its own corners. */
  lemma {:induction false} GridQuadAt(n: nat, q: nat)
    requires q < n
    ensures GridVertices(n)[4 * q..4 * q + 4] == QuadVertices(Origin(q))
    ensures GridIndices(n)[6 * q..6 * q + 6] == QuadIndices(4 * q)
  {
    var vs := GridVertices(n - 1);
    var ids := GridIndices(n - 1);
    assert GridVertices(n) == vs + QuadVertices(Origin(n - 1));
    assert GridIndices(n) == ids + QuadIndices(4 * (n - 1));
    if q < n - 1 {
      GridQuadAt(n - 1, q);
      assert GridVertices(n)[4 * q..4 * q + 4] == vs[4 * q..4 * q + 4];
      assert GridIndices(n)[6 * q..6 * q + 6] == ids[6 * q..6 * q + 6];
    } else {
      assert GridVertices(n)[4 * q..4 * q + 4] == QuadVertices(Origin(n - 1));
      assert GridIndices(n)[6 * q..6 * q + 6] == QuadIndices(4 * (n - 1));
    }
  }

  /** Quad `i * 128 + j` is the one the loops make at x = i/8, z = j/8. */
  lemma OriginOfQuad(i: nat, j: nat)
    requires i < GridSide && j < GridSide
    ensures Origin(i * GridSide + j) == Vec3(i as real / 8.0, 0.0, j as real / 8.0)
  {
    assert (i * GridSide + j) / GridSide == i;
    assert (i * GridSide + j) % GridSide == j;
  }

  /** The quad the loops make at x = i/8, z = j/8 is one of the grid's. */
  lemma QuadInGrid(i: nat, j: nat)
    requires i < GridSide && j < GridSide
    ensures i * GridSide + j < QuadCount
  {
    assert i * GridSide <= (GridSide - 1) * GridSide;
  }

  /** Vertex `p` of the grid is corner `c` of the quad the loops make at
      x = i/8, z = j/8, when `p` is `4 (128 i + j) + c`. */
  lemma CornerOfQuad(i: nat, j: nat, c: nat, p: nat)
    requires i < GridSide && j < GridSide && c < 4 && p == 4 * (i * GridSide + j) + c
    ensures GridVertices(QuadCount)[p] == QuadVertices(Vec3(i as real / 8.0, 0.0, j as real / 8.0))[c]
  {
    var q := i * GridSide + j;
    QuadInGrid(i, j);
    GridQuadAt(QuadCount, q);
    OriginOfQuad(i, j);
    assert GridVertices(QuadCount)[p] == GridVertices(QuadCount)[4 * q..4 * q + 4][c];
  }

  /** The far corner in x of quad (i, j) lies, in x and z, on the near
      corner of quad (i + 1, j). */
  lemma NeighbourInX(i: nat, j: nat)
    requires i + 1 < GridSide && j < GridSide
    ensures var g := GridVertices(QuadCount);
      var a := g[4 * (i * GridSide + j) + 3].position;
      var b := g[4 * ((i + 1) * GridSide + j)].position;
      a.x == b.x && a.z == b.z
  {
    CornerOfQuad(i, j, 3, 4 * (i * GridSide + j) + 3);
    CornerOfQuad(i + 1, j, 0, 4 * ((i + 1) * GridSide + j));
  }

  /** The far corner in z of quad (i, j) lies, in x and z, on the near
      corner of quad (i, j + 1). */
  lemma NeighbourInZ(i: nat, j: nat)
    requires i < GridSide && j + 1 < GridSide
    ensures var g := GridVertices(QuadCount);
      var a := g[4 * (i * GridSide + j) + 1].position;
      var b := g[4 * (i * GridSide + j + 1)].position;
      a.x == b.x && a.z == b.z
  {
    CornerOfQuad(i, j, 1, 4 * (i * GridSide + j) + 1);
    CornerOfQuad(i, j + 1, 0, 4 * (i * GridSide + j + 1));
  }

  /** The chunk is seamless: the far corners of a quad coincide, height
      included, with the near corners of its neighbours in x and in z. */
  lemma SeamlessTerrain(noise: (real, real) -> real, i: nat, j: nat)
    requires i < GridSide && j < GridSide
    ensures var t := Terrain(noise);
      (i + 1 < GridSide ==> t[4 * (i * GridSide + j) + 3].position == t[4 * ((i + 1) * GridSide + j)].position)
      && (j + 1 < GridSide ==> t[4 * (i * GridSide + j) + 1].position == t[4 * (i * GridSide + j + 1)].position)
  {
    if i + 1 < GridSide {
      NeighbourInX(i, j);
    }
    if j + 1 < GridSide {
      NeighbourInZ(i, j);
    }
  }

  /** Distinct chunk positions give distinct object names, so every chunk
      gets its own registry entry. */
  lemma ChunkNameInjective(p: ChunkPosition, q: ChunkPosition)
    requires ChunkName(p) == ChunkName(q)
    ensures p == q
  {
    var z, z' := IntToString(p.z), IntToString(q.z);
    var yz := IntToString(p.y) + (", " + (z + ")"));
    var yz' := IntToString(q.y) + (", " + (z' + ")"));
    var xyz := IntToString(p.x) + (", " + yz);
    var xyz' := IntToString(q.x) + (", " + yz');
    assert xyz == ChunkName(p)[6..] && xyz' == ChunkName(q)[6..];
    SplitAt(IntToString(p.x), IntToString(q.x), ", ", yz, yz');
    IntToStringInjective(p.x, q.x);
    SplitAt(IntToString(p.y), IntToString(q.y), ", ", z + ")", z' + ")");
    IntToStringInjective(p.y, q.y);
    assert z + (")" + []) == z + ")" && z' + (")" + []) == z' + ")";
    SplitAt(z, z', ")", [], []);
    IntToStringInjective(p.z, q.z);
  }

  /** A string made of a part free of `sep`'s first character, `sep` and a
      rest determines both. */
  lemma SplitAt(a: string, b: string, sep: string, r: string, t: string)
    requires forall k :: 0 <= k < |a| ==> a[k] == '-' || '0' <= a[k] <= '9'
    requires forall k :: 0 <= k < |b| ==> b[k] == '-' || '0' <= b[k] <= '9'
    requires sep == ", " || sep == ")"
    requires a + (sep + r) == b + (sep + t)
    ensures a == b && r == t
  {
    var s := a + (sep + r);
    assert s[|a|] == sep[0];
    assert forall k :: 0 <= k < |a| ==> s[k] != sep[0];
    assert (b + (sep + t))[|b|] == sep[0];
    assert forall k :: 0 <= k < |b| ==> (b + (sep + t))[k] != sep[0];
    assert |a| == |b|;
    assert a == s[..|a|] && b == s[..|b|];
    assert r == s[|a| + |sep|..] && t == s[|b| + |sep|..];
  }

  // ---------------------------------------------------------------------
  // The chunk

  class Chunk {
    /** The renderable object (`data.object`); null until `InitalizeChunk`. */
    var chunkObject: RenderableObject?
    var vertices: seq<Vertex>
    var indices: seq<nat>
    var indiceIndex: nat
    /** The noise source; absent until `InitalizeChunk`. */
    var noise: Option<(real, real) -> real>

    /** An initialised chunk: it has its object and noise, and its object
        was registered as a plain chunkObject with nothing queued. */
    predicate Valid()
      reads this, chunkObject
    {
      chunkObject != null && noise.Some?
      && chunkObject.bufferCalls == [] && chunkObject.pointerCalls == []
      && !chunkObject.advanced && !chunkObject.completelyReplaceDefaultGLPointerCalls
    }

    constructor ()
      ensures chunkObject == null && noise == None && vertices == [] && indices == [] && indiceIndex == 0
    {
      chunkObject := null;
      noise := None;
      vertices := [];
      indices := [];
      indiceIndex := 0;
    }

    /** `GenerateQuad`: four corners and two triangles over them; the
        index counter moves on by four. */
    method GenerateQuad(position: Vec3)
      modifies this`vertices, this`indices, this`indiceIndex
      ensures vertices == old(vertices) + QuadVertices(position)
      ensures indices == old(indices) + QuadIndices(old(indiceIndex))
      ensures indiceIndex == old(indiceIndex) + 4
    {
      vertices := vertices + QuadVertices(position);
      indices := indices + QuadIndices(indiceIndex);
      indiceIndex := indiceIndex + 4;
    }

    /** The mesh part of `Rebuild`: the grid from scratch, then the
        height pass. */
    method BuildMesh()
      requires noise.Some?
      modifies this`vertices, this`indices, this`indiceIndex
      ensures vertices == Terrain(noise.value) && indices == GridIndices(QuadCount)
      ensures indiceIndex == |vertices|
    {
      vertices := [];
      indices := [];
      indiceIndex := 0;
      BuildGrid();
      RaiseVertices();
    }

    /** The two loops over the grid: x in the outer loop, z in the inner
        one, both from 0 up to `CHUNK_SIZE` in steps of 1/8. */
    method BuildGrid()
      requires vertices == [] && indices == [] && indiceIndex == 0
      modifies this`vertices, this`indices, this`indiceIndex
      ensures vertices == GridVertices(QuadCount) && indices == GridIndices(QuadCount)
      ensures indiceIndex == |vertices|
    {
      var x := 0;
      while x < GridSide
        invariant 0 <= x <= GridSide
        invariant vertices == GridVertices(x * GridSide) && indices == GridIndices(x * GridSide)
        invariant indiceIndex == |vertices|
      {
        GenerateRow(x);
        x := x + 1;
      }
    }

    /** One pass of the inner loop: the quads at x = `x`/8. */
    method GenerateRow(x: nat)
      requires x < GridSide
      requires vertices == GridVertices(x * GridSide) && indices == GridIndices(x * GridSide)
      requires indiceIndex == |vertices|
      modifies this`vertices, this`indices, this`indiceIndex
      ensures vertices == GridVertices((x + 1) * GridSide) && indices == GridIndices((x + 1) * GridSide)
      ensures indiceIndex == |vertices|
    {
      var z := 0;
      while z < GridSide
        invariant 0 <= z <= GridSide
        invariant vertices == GridVertices(x * GridSide + z) && indices == GridIndices(x * GridSide + z)
        invariant indiceIndex == |vertices|
      {
        OriginOfQuad(x, z);
        GenerateQuad(Vec3(x as real / 8.0, 0.0, z as real / 8.0));
        z := z + 1;
      }
    }

    /** The height pass over the vertices. */
    method RaiseVertices()
      requires noise.Some?
      modifies this`vertices
      ensures vertices == Heightened(old(vertices), noise.value)
    {
      var f := noise.value;
      var i := 0;
      while i < |vertices|
        invariant 0 <= i <= |vertices| == |old(vertices)|
        invariant forall k :: 0 <= k < i ==> vertices[k] == Lifted(old(vertices)[k], f)
        invariant forall k :: i <= k < |vertices| ==> vertices[k] == old(vertices)[k]
      {
        var vertex := vertices[i];
        vertices := vertices[i := vertex.(position := vertex.position.(y := f(vertex.position.x, vertex.position.z) * Scale + Offset))];
        i := i + 1;
      }
      assert vertices == Heightened(old(vertices), f);
    }

    /** `Rebuild`: the mesh, then the object gets the chunk texture and the
        mesh, uploads it and is registered; registration under a name that
        is already taken adds nothing. `ts` is the object's texture map
        once the chunk texture is added. */
    method Rebuild(gl: Context, tm: TextureManager, registry: Registry) returns (ghost ts: map<string, Texture>)
      requires Valid() && registry.Valid()
      modifies this`vertices, this`indices, this`indiceIndex, chunkObject`textures, chunkObject`vertices, chunkObject`indices, chunkObject`buffers,
        chunkObject`bufferCalls, chunkObject`pointerCalls, gl, tm, registry`renderableObjects
      ensures Valid() && registry.Valid() && chunkObject == old(chunkObject)
      ensures chunkObject.shader == old(chunkObject.shader) && chunkObject.transform == old(chunkObject.transform)
      ensures vertices == Terrain(noise.value) && indices == GridIndices(QuadCount) && indiceIndex == |vertices|
      ensures chunkObject.vertices == vertices && chunkObject.indices == indices
      ensures tm.registeredTextures == Subscript(old(tm.registeredTextures), ChunkTexture, EmptyTexture)
      ensures ts == Insert(old(chunkObject.textures), tm.registeredTextures[ChunkTexture].name, tm.registeredTextures[ChunkTexture])
      ensures UploadState(chunkObject, gl, false)
        == PlainOutcome(chunkObject.name, false, |vertices|, |indices|, ts, old(chunkObject.buffers), old(gl.trace), old(gl.nextName), gl.images)
      ensures gl.errors == old(gl.errors)
      ensures registry.renderableObjects == Insert(old(registry.renderableObjects), chunkObject.name, chunkObject)
    {
      BuildMesh();
      ts := Publish(gl, tm, registry);
    }

    /** The object part of `Rebuild`, for whatever mesh the chunk holds. */
    method Publish(gl: Context, tm: TextureManager, registry: Registry) returns (ghost ts: map<string, Texture>)
      requires Valid() && registry.Valid()
      modifies chunkObject`textures, chunkObject`vertices, chunkObject`indices, chunkObject`buffers,
        chunkObject`bufferCalls, chunkObject`pointerCalls, gl, tm, registry`renderableObjects
      ensures Valid() && registry.Valid()
      ensures chunkObject.shader == old(chunkObject.shader) && chunkObject.transform == old(chunkObject.transform)
      ensures chunkObject.vertices == vertices && chunkObject.indices == indices
      ensures tm.registeredTextures == Subscript(old(tm.registeredTextures), ChunkTexture, EmptyTexture)
      ensures ts == Insert(old(chunkObject.textures), tm.registeredTextures[ChunkTexture].name, tm.registeredTextures[ChunkTexture])
      ensures UploadState(chunkObject, gl, false)
        == PlainOutcome(chunkObject.name, false, |vertices|, |indices|, ts, old(chunkObject.buffers), old(gl.trace), old(gl.nextName), gl.images)
      ensures gl.errors == old(gl.errors)
      ensures registry.renderableObjects == Insert(old(registry.renderableObjects), chunkObject.name, chunkObject)
    {
      var t := tm.GetTexture(ChunkTexture);
      label BeforeUpload:
      ts := UploadMesh(gl, t);
      registry.StaysValid@BeforeUpload();
      registry.RegisterRenderableObject(chunkObject);
    }

    /** The object gets texture `t` and the chunk's mesh and uploads them. */
    method UploadMesh(gl: Context, t: Texture) returns (ghost ts: map<string, Texture>)
      requires Valid()
      modifies chunkObject`textures, chunkObject`vertices, chunkObject`indices, chunkObject`buffers,
        chunkObject`bufferCalls, chunkObject`pointerCalls, gl
      ensures ts == Insert(old(chunkObject.textures), t.name, t)
      ensures Valid() && chunkObject.vertices == vertices && chunkObject.indices == indices
      ensures chunkObject.shader == old(chunkObject.shader) && chunkObject.transform == old(chunkObject.transform)
      ensures UploadState(chunkObject, gl, false)
        == PlainOutcome(chunkObject.name, false, |vertices|, |indices|, ts, old(chunkObject.buffers), old(gl.trace), old(gl.nextName), gl.images)
      ensures gl.errors == old(gl.errors)
    {
      chunkObject.RegisterTexture(t);
      ts := chunkObject.textures;
      chunkObject.ReRegister(vertices, indices);
      UploadObject(gl, ts, old(chunkObject.buffers), old(gl.trace), old(gl.nextName));
    }

    /** The object's upload, as far as the chunk relies on it: `textures`,
        `buffers`, `trace` and `last` name the state it starts from. */
    method UploadObject(gl: Context, ghost textures: map<string, Texture>, ghost buffers: map<string, nat>,
                        ghost trace: seq<GlCall>, ghost last: nat)
      requires Valid() && chunkObject.vertices == vertices && chunkObject.indices == indices
      requires chunkObject.textures == textures && chunkObject.buffers == buffers
      requires gl.trace == trace && gl.nextName == last
      modifies chunkObject`buffers, chunkObject`bufferCalls, chunkObject`pointerCalls, chunkObject`textures, gl
      ensures Valid()
      ensures chunkObject.shader == old(chunkObject.shader) && chunkObject.transform == old(chunkObject.transform)
      ensures UploadState(chunkObject, gl, false)
        == PlainOutcome(chunkObject.name, false, |vertices|, |indices|, textures, buffers, trace, last, gl.images)
      ensures gl.errors == old(gl.errors)
    {
      chunkObject.GeneratePlainRawData(gl);
    }

    /** `InitalizeChunk`: a plain object named after the position and
        placed there, and the first `Rebuild`. */
    method InitalizeChunk(position: ChunkPosition, noiseSource: (real, real) -> real,
                          gl: Context, tm: TextureManager, registry: Registry)
      requires registry.Valid()
      modifies this`chunkObject, this`noise, this`vertices, this`indices, this`indiceIndex, gl, tm, registry`renderableObjects
      ensures Valid() && registry.Valid() && fresh(chunkObject)
      ensures chunkObject.name == ChunkName(position) && chunkObject.shader == DefaultShader
      ensures chunkObject.transform == Transform(Vec3(position.x as real, position.y as real, position.z as real))
      ensures noise == Some(noiseSource)
      ensures vertices == Terrain(noiseSource) && indices == GridIndices(QuadCount)
      ensures chunkObject.vertices == vertices && chunkObject.indices == indices
      ensures tm.registeredTextures == Subscript(old(tm.registeredTextures), ChunkTexture, EmptyTexture)
      ensures var t := tm.registeredTextures[ChunkTexture];
        UploadState(chunkObject, gl, false)
        == PlainOutcome(chunkObject.name, false, |vertices|, |indices|, map[t.name := t], InitialBuffers, old(gl.trace), old(gl.nextName), gl.images)
      ensures gl.errors == old(gl.errors)
      ensures registry.renderableObjects == Insert(old(registry.renderableObjects), chunkObject.name, chunkObject)
    {
      CreateObject(position, noiseSource);
      ghost var ts := Rebuild(gl, tm, registry);
    }

    /** The first half of `InitalizeChunk`: the object, its name, its place,
        and the noise source. */
    method CreateObject(position: ChunkPosition, noiseSource: (real, real) -> real)
      modifies this`chunkObject, this`noise
      ensures Valid() && fresh(chunkObject)
      ensures chunkObject.name == ChunkName(position) && chunkObject.shader == DefaultShader
      ensures chunkObject.transform == Transform(Vec3(position.x as real, position.y as real, position.z as real))
      ensures chunkObject.textures == map[] && chunkObject.buffers == InitialBuffers && noise == Some(noiseSource)
    {
      var o := RenderableObject.Register(ChunkName(position), [], [], false, false, DefaultShader);
      o.transform := Transform(Vec3(position.x as real, position.y as real, position.z as real));
      chunkObject := o;
      noise := Some(noiseSource);
    }
  }
}
