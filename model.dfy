/** Model import (`Model`): the scene an importer reads is walked node by
    node, every mesh becomes a renderable object with its vertices, its
    flattened faces and the textures loaded so far, and every material's
    texture paths go through the `loadedTextures` lookup. The importer is
    replaced by a map from file path to the scene it yields. */
module Models {
  import opened Wrappers
  import opened Glm
  import opened Gl
  import opened StdMap
  import opened Textures
  import opened Renderables
  import opened Renderer

  /** The name every imported mesh is registered under. */
  const MeshName: string := "mesh"

  /** A material: its name and, per texture slot the loader asks for, the
      raw paths the file lists. */
  datatype Material = Material(name: string, diffuse: seq<string>, specular: seq<string>, height: seq<string>)

  /** A mesh as the importer hands it over: vertex positions, the first
      texture-coordinate channel if the file has one, the faces as index
      lists, and the material it uses. */
  datatype Mesh = Mesh(positions: seq<Vec3>, textureCoords: Option<seq<Vec2>>, faces: seq<seq<nat>>, materialIndex: nat)

  /** A node of the scene graph: the scene meshes it refers to, then its children. */
  datatype Node = Node(meshes: seq<nat>, children: seq<Node>)

  /** The import result: the incomplete flag, the root node if there is
      one, the meshes and the materials. */
  datatype Scene = Scene(incomplete: bool, root: Option<Node>, meshes: seq<Mesh>, materials: seq<Material>)

  /** Every mesh a node or its descendants refers to exists. */
  predicate RefersWithin(n: Node, meshCount: nat)
    decreases n
  {
    (forall i :: 0 <= i < |n.meshes| ==> n.meshes[i] < meshCount)
    && forall i :: 0 <= i < |n.children| ==> RefersWithin(n.children[i], meshCount)
  }

  /** A texture channel, if there is one, covers every vertex. */
  predicate ChannelCovers(m: Mesh)
  {
    m.textureCoords.Some? ==> |m.textureCoords.value| >= |m.positions|
  }

  /** A texture channel covers every vertex and the material exists. */
  predicate MeshWithin(m: Mesh, materialCount: nat)
  {
    ChannelCovers(m) && m.materialIndex < materialCount
  }

  /** What an importer guarantees about the scenes it returns: every index
      it stores is in range. */
  predicate WellFormed(s: Scene)
  {
    (forall i :: 0 <= i < |s.meshes| ==> MeshWithin(s.meshes[i], |s.materials|))
    && (s.root.Some? ==> RefersWithin(s.root.value, |s.meshes|))
  }

  /** The load failed: no scene, an incomplete one, or one without a root. */
  predicate Unusable(files: map<string, Scene>, path: string)
  {
    path !in files || files[path].incomplete || files[path].root.None?
  }

  // ---------------------------------------------------------------- traversal

  /** The scene meshes in the order `ProcessBone` visits them from `n`: the
      node's own, then each child's subtree, left to right. */
  function Order(n: Node): seq<nat>
    decreases n, |n.children| + 1
  {
    n.meshes + ChildrenOrder(n, 0)
  }

  /** The visiting order of the subtrees of `n`'s children from `i` on. */
  function ChildrenOrder(n: Node, i: nat): seq<nat>
    decreases n, |n.children| - i
  {
    if i >= |n.children| then [] else Order(n.children[i]) + ChildrenOrder(n, i + 1)
  }

  /** `m` occurs somewhere in the tree under `n`. */
  predicate Mentions(n: Node, m: nat)
    decreases n
  {
    m in n.meshes || exists i :: 0 <= i < |n.children| && Mentions(n.children[i], m)
  }

  /** The traversal visits exactly the meshes the tree mentions. */
  lemma {:induction false} OrderVisitsMentioned(n: Node, m: nat)
    ensures m in Order(n) <==> Mentions(n, m)
    decreases n, |n.children| + 1
  {
    ChildrenOrderVisits(n, 0, m);
  }

  lemma {:induction false} ChildrenOrderVisits(n: Node, i: nat, m: nat)
    ensures m in ChildrenOrder(n, i) <==> exists j :: i <= j < |n.children| && Mentions(n.children[j], m)
    decreases n, |n.children| - i
  {
    if i < |n.children| {
      OrderVisitsMentioned(n.children[i], m);
      ChildrenOrderVisits(n, i + 1, m);
      if exists j :: i <= j < |n.children| && Mentions(n.children[j], m) {
        var j :| i <= j < |n.children| && Mentions(n.children[j], m);
        if j > i {
          assert m in ChildrenOrder(n, i + 1);
        }
      }
    }
  }

  /** The traversal is pre-order: the node's own meshes come first, in
      their listed order, and the subtree of child `i` sits right after
      the node's meshes and the subtrees of the children before it. */
  lemma {:induction false} PreOrder(n: Node, i: nat)
    requires i < |n.children|
    ensures Order(n)[..|n.meshes|] == n.meshes
    ensures var s := |n.meshes| + |ChildrenPrefix(n, i)|;
      s + |Order(n.children[i])| <= |Order(n)| && Order(n)[s..s + |Order(n.children[i])|] == Order(n.children[i])
  {
    ChildrenSplit(n, i);
    var before, sub, after := n.meshes + ChildrenPrefix(n, i), Order(n.children[i]), ChildrenOrder(n, i + 1);
    assert Order(n) == before + sub + after;
    assert (before + sub + after)[|before|..|before| + |sub|] == sub;
  }

  /** Every mesh the traversal visits exists. */
  lemma {:induction false} OrderWithin(n: Node, meshCount: nat)
    requires RefersWithin(n, meshCount)
    ensures forall i :: 0 <= i < |Order(n)| ==> Order(n)[i] < meshCount
    decreases n, |n.children| + 1
  {
    ChildrenOrderWithin(n, 0, meshCount);
  }

  lemma {:induction false} ChildrenOrderWithin(n: Node, i: nat, meshCount: nat)
    requires RefersWithin(n, meshCount)
    ensures forall k :: 0 <= k < |ChildrenOrder(n, i)| ==> ChildrenOrder(n, i)[k] < meshCount
    decreases n, |n.children| - i
  {
    if i < |n.children| {
      OrderWithin(n.children[i], meshCount);
      ChildrenOrderWithin(n, i + 1, meshCount);
    }
  }

  // ---------------------------------------------------------------- geometry

  /** The texture coordinates of vertex `i`: from channel 0, or (0, 0)
      when the mesh has none. */
  function TexCoord(m: Mesh, i: nat): Vec2
    requires ChannelCovers(m) && i < |m.positions|
  {
    match m.textureCoords
    case Some(coords) => coords[i]
    case None => Zero2
  }

  /** The vertices `ProcessMesh` builds: the position and texture
      coordinates of each importer vertex; colour and normal are
      value-initialised. */
  function MeshVertices(m: Mesh): (r: seq<Vertex>)
    requires ChannelCovers(m)
  {
    seq(|m.positions|, i requires 0 <= i < |m.positions| => Vertex(m.positions[i], Zero3, Zero3, TexCoord(m, i)))
  }

  /** One vertex per importer vertex, at its position; without a texture
      channel every vertex gets (0, 0), with one each gets its own entry. */
  lemma VerticesOfMesh(m: Mesh)
    requires ChannelCovers(m)
    ensures |MeshVertices(m)| == |m.positions|
    ensures forall i :: 0 <= i < |m.positions| ==> MeshVertices(m)[i].position == m.positions[i]
    ensures m.textureCoords.None? ==> forall i :: 0 <= i < |m.positions| ==> MeshVertices(m)[i].textureCoords == Zero2
    ensures m.textureCoords.Some? ==>
      forall i :: 0 <= i < |m.positions| ==> MeshVertices(m)[i].textureCoords == m.textureCoords.value[i]
  {
  }

  /** The faces' index lists laid end to end, in face order. */
  function Flatten(faces: seq<seq<nat>>): seq<nat>
  {
    if faces == [] then [] else Flatten(faces[..|faces| - 1]) + faces[|faces| - 1]
  }

  /** Flattening is compatible with splitting the face list anywhere. */
  lemma {:induction false} FlattenAppend(a: seq<seq<nat>>, b: seq<seq<nat>>)
    ensures Flatten(a + b) == Flatten(a) + Flatten(b)
    decreases |b|
  {
    if b == [] {
      assert a + b == a;
    } else {
      var init := b[..|b| - 1];
      assert (a + b)[..|a + b| - 1] == a + init;
      FlattenAppend(a, init);
    }
  }

  /** For triangulated faces, index `3 k + j` is corner `j` of face `k`. */
  lemma {:induction false} FlattenTriangles(faces: seq<seq<nat>>, k: nat, j: nat)
    requires forall f :: f in faces ==> |f| == 3
    requires k < |faces| && j < 3
    ensures |Flatten(faces)| == 3 * |faces|
    ensures Flatten(faces)[3 * k + j] == faces[k][j]
    decreases |faces|
  {
    var init := faces[..|faces| - 1];
    assert forall f :: f in init ==> f in faces;
    if init == [] {
      assert Flatten(faces) == [] + faces[0];
    } else if k < |init| {
      FlattenTriangles(init, k, j);
    } else {
      FlattenTriangles(init, 0, 0);
    }
  }

  /** Every index of a face that names an existing vertex is an index
      that names an existing vertex. */
  lemma {:induction false} FlattenWithin(faces: seq<seq<nat>>, vertexCount: nat)
    requires forall f, i :: f in faces && 0 <= i < |f| ==> f[i] < vertexCount
    ensures forall i :: 0 <= i < |Flatten(faces)| ==> Flatten(faces)[i] < vertexCount
    decreases |faces|
  {
    if faces != [] {
      var init := faces[..|faces| - 1];
      assert forall f :: f in init ==> f in faces;
      FlattenWithin(init, vertexCount);
    }
  }

  // ---------------------------------------------------------------- textures

  /** The position of the first loaded texture whose path is `path`. */
  function FirstWithPath(loaded: seq<Texture>, path: string): (r: Option<nat>)
    ensures r.Some? ==>
      r.value < |loaded| && loaded[r.value].path == path && forall i :: 0 <= i < r.value ==> loaded[i].path != path
    ensures r.None? <==> forall i :: 0 <= i < |loaded| ==> loaded[i].path != path
  {
    if loaded == [] then None
    else if loaded[0].path == path then Some(0)
    else match FirstWithPath(loaded[1..], path)
      case None => None
      case Some(i) => Some(i + 1)
  }

  /** The state of one `LoadTextures` call: the loaded list, and the
      textures it collected for the mesh. */
  datatype Lookup = Lookup(loaded: seq<Texture>, found: seq<Texture>)

  /** `LoadTextures` over `paths`, in order: a path some loaded texture
      already has collects the first such texture; any other path adds a
      new texture, named after the material, with the path under the
      default asset domain. */
  function LoadPaths(loaded: seq<Texture>, paths: seq<string>, materialName: string, kind: TextureType): (r: Lookup)
  {
    if paths == [] then Lookup(loaded, [])
    else LoadOne(LoadPaths(loaded, paths[..|paths| - 1], materialName, kind), paths[|paths| - 1], materialName, kind)
  }

  /** One more path after the lookup `before`. */
  function LoadOne(before: Lookup, path: string, materialName: string, kind: TextureType): Lookup
  {
    match FirstWithPath(before.loaded, path)
    case Some(i) => Lookup(before.loaded, before.found + [before.loaded[i]])
    case None => Lookup(before.loaded + [Register(path, materialName, PropertiesType(kind), DefaultDomain)], before.found)
  }

  /** Looking up the first `i + 1` paths is looking up the first `i`, then path `i`. */
  lemma LoadPathsTake(loaded: seq<Texture>, paths: seq<string>, i: nat, materialName: string, kind: TextureType)
    requires i < |paths|
    ensures LoadPaths(loaded, paths[..i + 1], materialName, kind)
         == LoadOne(LoadPaths(loaded, paths[..i], materialName, kind), paths[i], materialName, kind)
  {
    assert paths[..i + 1][..i] == paths[..i];
  }

  /** Every path either collects a texture or adds one; the loaded list
      only grows at its end, by textures named after the material with
      the asked-for type; everything collected is in the loaded list. */
  lemma {:induction false} LoadPathsAccounts(loaded: seq<Texture>, paths: seq<string>, materialName: string, kind: TextureType)
    ensures var r := LoadPaths(loaded, paths, materialName, kind);
      |r.loaded| >= |loaded| && |r.loaded| - |loaded| + |r.found| == |paths|
      && r.loaded[..|loaded|] == loaded
      && (forall i :: |loaded| <= i < |r.loaded| ==>
            r.loaded[i].name == materialName && r.loaded[i].properties == PropertiesType(kind))
      && forall t :: t in r.found ==> t in r.loaded
    decreases |paths|
  {
    if paths != [] {
      LoadPathsAccounts(loaded, paths[..|paths| - 1], materialName, kind);
    }
  }

  /** A path that does not itself start with `assets/` never equals the
      stored path of a texture this loader added. */
  lemma AddedPathDiffers(path: string, raw: string)
    requires |path| < 7 || path[..7] != "assets/"
    ensures AssetPath(DefaultDomain, raw) != path
  {
  }

  /** The lookup only finds what it stores: as long as the file's paths do
      not start with `assets/` and no loaded texture has one of them as
      its path, no path is ever found, and every path, repeated ones
      included, adds a texture. */
  lemma {:induction false} RawPathsNeverMatch(loaded: seq<Texture>, paths: seq<string>, materialName: string, kind: TextureType)
    requires forall j :: 0 <= j < |paths| ==> |paths[j]| < 7 || paths[j][..7] != "assets/"
    requires forall i, j :: 0 <= i < |loaded| && 0 <= j < |paths| ==> loaded[i].path != paths[j]
    ensures LoadPaths(loaded, paths, materialName, kind) == Lookup(loaded + Added(paths, materialName, kind), [])
    decreases |paths|
  {
    if paths != [] {
      var init := paths[..|paths| - 1];
      var path := paths[|paths| - 1];
      assert forall j :: 0 <= j < |init| ==> init[j] == paths[j];
      RawPathsNeverMatch(loaded, init, materialName, kind);
      var added := Added(init, materialName, kind);
      var before := loaded + added;
      forall i | 0 <= i < |before|
        ensures before[i].path != path
      {
        if i < |loaded| {
          assert loaded[i].path != path;
        } else {
          var k := i - |loaded|;
          assert before[i] == added[k];
          assert |path| < 7 || path[..7] != "assets/";
          AddedPathDiffers(path, init[k]);
          assert added[k].path == AssetPath(DefaultDomain, init[k]);
        }
      }
      assert FirstWithPath(before, path) == None;
      ConcatAssociative(loaded, added, [Register(path, materialName, PropertiesType(kind), DefaultDomain)]);
    }
  }

  /** The textures `LoadTextures` adds for `paths` when none is found. */
  function Added(paths: seq<string>, materialName: string, kind: TextureType): (r: seq<Texture>)
    ensures |r| == |paths|
    ensures forall i :: 0 <= i < |paths| ==> r[i].path == AssetPath(DefaultDomain, paths[i])
  {
    if paths == [] then []
    else Added(paths[..|paths| - 1], materialName, kind) + [Register(paths[|paths| - 1], materialName, PropertiesType(kind), DefaultDomain)]
  }

  /** `LoadTextures` for the three slots of a material, diffuse, specular
      and height (loaded as normal maps), in that order. */
  function MaterialLookup(loaded: seq<Texture>, material: Material): (r: Lookup)
  {
    var d := LoadPaths(loaded, material.diffuse, material.name, Diffuse);
    var s := LoadPaths(d.loaded, material.specular, material.name, Specular);
    var h := LoadPaths(s.loaded, material.height, material.name, Normal);
    Lookup(h.loaded, d.found + s.found + h.found)
  }

  /** The loaded list after the meshes of `order` have been processed. */
  function LoadAll(loaded: seq<Texture>, scene: Scene, order: seq<nat>): seq<Texture>
    requires WellFormed(scene) && forall i :: 0 <= i < |order| ==> order[i] < |scene.meshes|
  {
    if order == [] then loaded
    else
      var before := LoadAll(loaded, scene, order[..|order| - 1]);
      MaterialLookup(before, scene.materials[scene.meshes[order[|order| - 1]].materialIndex]).loaded
  }

  /** Processing one batch of meshes after another is processing both. */
  lemma {:induction false} LoadAllAppend(loaded: seq<Texture>, scene: Scene, a: seq<nat>, b: seq<nat>)
    requires WellFormed(scene)
    requires forall i :: 0 <= i < |a| ==> a[i] < |scene.meshes|
    requires forall i :: 0 <= i < |b| ==> b[i] < |scene.meshes|
    ensures forall i :: 0 <= i < |a + b| ==> (a + b)[i] < |scene.meshes|
    ensures LoadAll(loaded, scene, a + b) == LoadAll(LoadAll(loaded, scene, a), scene, b)
    decreases |b|
  {
    if b == [] {
      assert a + b == a;
    } else {
      var init := b[..|b| - 1];
      assert (a + b)[..|a + b| - 1] == a + init;
      LoadAllAppend(loaded, scene, a, init);
    }
  }

  /** The object's texture map once every loaded texture has been offered
      to it, in order: the first texture under each name. */
  function InsertAll(m: map<string, Texture>, ts: seq<Texture>): (r: map<string, Texture>)
  {
    if ts == [] then m else Insert(InsertAll(m, ts[..|ts| - 1]), ts[|ts| - 1].name, ts[|ts| - 1])
  }

  /** Offering `ts` to an empty map files under each name the first
      texture of that name and nothing else: since a material's textures
      all carry the material's name, an object keeps one texture per
      material, the first one loaded. */
  lemma {:induction false} InsertAllFirst(ts: seq<Texture>, i: nat)
    requires i < |ts| && forall j :: 0 <= j < i ==> ts[j].name != ts[i].name
    ensures ts[i].name in InsertAll(map[], ts) && InsertAll(map[], ts)[ts[i].name] == ts[i]
    decreases |ts|
  {
    var init := ts[..|ts| - 1];
    InsertAllNames(init);
    if i < |init| {
      InsertAllFirst(init, i);
    } else {
      assert forall j :: 0 <= j < |init| ==> init[j].name != ts[i].name;
    }
  }

  /** The names of the textures `ts`. */
  function Names(ts: seq<Texture>): set<string>
  {
    set i | 0 <= i < |ts| :: ts[i].name
  }

  /** The names of a list with one more texture. */
  lemma NamesSnoc(ts: seq<Texture>, t: Texture)
    ensures Names(ts + [t]) == Names(ts) + {t.name}
  {
    var ts' := ts + [t];
    assert forall i :: 0 <= i < |ts| ==> ts'[i] == ts[i];
    assert ts'[|ts|] == t;
  }

  /** The map holds exactly the names of the offered textures. */
  lemma {:induction false} InsertAllNames(ts: seq<Texture>)
    ensures InsertAll(map[], ts).Keys == Names(ts)
    decreases |ts|
  {
    if ts != [] {
      var init := ts[..|ts| - 1];
      InsertAllNames(init);
      InitLast(ts);
      NamesSnoc(init, ts[|ts| - 1]);
    }
  }

  // ---------------------------------------------------------------- meshes and the registry

  /** The registry after the objects `objs` were registered in turn under
      the one name `MeshName`: only the first can get in. */
  function RegisteredAfter(r: map<string, RenderableObject?>, objs: seq<RenderableObject>): map<string, RenderableObject?>
  {
    if objs == [] then r else Insert(r, MeshName, objs[0])
  }

  /** Registering one more mesh object changes nothing once one is in. */
  lemma RegisteredAfterStep(r: map<string, RenderableObject?>, objs: seq<RenderableObject>, o: RenderableObject)
    ensures RegisteredAfter(r, objs + [o]) == Insert(RegisteredAfter(r, objs), MeshName, o)
  {
    if objs != [] {
      assert (objs + [o])[0] == objs[0];
      InsertFirstWins(r, MeshName, objs[0], o);
    }
  }

  lemma RegisteredAfterAppend(r: map<string, RenderableObject?>, a: seq<RenderableObject>, b: seq<RenderableObject>)
    ensures RegisteredAfter(r, a + b) == RegisteredAfter(RegisteredAfter(r, a), b)
  {
    if a == [] {
      assert a + b == b;
    } else if b != [] {
      assert (a + b)[0] == a[0];
      InsertFirstWins(r, MeshName, a[0], b[0]);
    }
  }

  /** Of all the imported meshes only the first is registered: with no
      object under `mesh` before, the registry gains exactly that entry. */
  lemma OnlyFirstRegistered(r: map<string, RenderableObject?>, objs: seq<RenderableObject>)
    requires MeshName !in r && objs != []
    ensures RegisteredAfter(r, objs) == r[MeshName := objs[0]]
    ensures |RegisteredAfter(r, objs)| == |r| + 1
  {
  }

  /** Every position of `order` names one of `count` meshes. */
  predicate InRange(order: seq<nat>, count: nat)
  {
    forall i :: 0 <= i < |order| ==> order[i] < count
  }

  /** What an imported mesh object is made of: its name, vertices,
      indices and the names of its textures. */
  datatype MeshObject = MeshObject(name: string, vertices: seq<Vertex>, indices: seq<nat>, textureNames: set<string>)

  /** The parts of `o` an import determines. */
  function Shape(o: RenderableObject): MeshObject
    reads o
  {
    MeshObject(o.name, o.vertices, o.indices, o.textures.Keys)
  }

  /** The object `ProcessMesh` makes of `mesh` when the loaded textures
      carry the names `keys`. */
  function Expected(mesh: Mesh, keys: set<string>): MeshObject
    requires ChannelCovers(mesh)
  {
    MeshObject(MeshName, MeshVertices(mesh), Flatten(mesh.faces), keys)
  }

  /** `o` was built from scene mesh `m`: its name, its vertices, its
      flattened faces, and a texture under each name of `keys`. */
  ghost predicate BuiltFrom(o: RenderableObject, scene: Scene, m: nat, keys: set<string>)
    reads o
  {
    m < |scene.meshes| && ChannelCovers(scene.meshes[m]) && Shape(o) == Expected(scene.meshes[m], keys)
  }

  /** The objects `objs` were built from the scene meshes `order`, one
      each, in that order, each with every texture loaded by the time it
      was built, starting from the loaded list `loaded`. */
  ghost predicate Built(objs: seq<RenderableObject>, loaded: seq<Texture>, scene: Scene, order: seq<nat>)
    requires WellFormed(scene) && InRange(order, |scene.meshes|)
    reads objs
    decreases |objs|
  {
    |objs| == |order|
    && (objs != [] ==>
          Built(objs[..|objs| - 1], loaded, scene, order[..|order| - 1])
          && BuiltFrom(objs[|objs| - 1], scene, order[|order| - 1], Names(LoadAll(loaded, scene, order))))
  }

  /** A prefix of the objects was built from the same prefix of the meshes. */
  lemma {:induction false} BuiltPrefix(objs: seq<RenderableObject>, loaded: seq<Texture>, scene: Scene, order: seq<nat>, k: nat)
    requires WellFormed(scene) && InRange(order, |scene.meshes|) && Built(objs, loaded, scene, order) && k <= |objs|
    ensures Built(objs[..k], loaded, scene, order[..k])
    decreases |objs|
  {
    if k == |objs| {
      TakeAll(objs);
      TakeAll(order);
    } else {
      var n := |objs| - 1;
      BuiltInit(objs, loaded, scene, order);
      BuiltPrefix(objs[..n], loaded, scene, order[..n], k);
      TakeTake(objs, n, k);
      TakeTake(order, n, k);
    }
  }

  /** The `i`-th object was built from the `i`-th mesh, with the textures
      loaded up to and including that mesh. */
  lemma BuiltAt(objs: seq<RenderableObject>, loaded: seq<Texture>, scene: Scene, order: seq<nat>, i: nat)
    requires WellFormed(scene) && InRange(order, |scene.meshes|) && Built(objs, loaded, scene, order) && i < |objs|
    ensures InRange(order[..i + 1], |scene.meshes|)
    ensures BuiltFrom(objs[i], scene, order[i], Names(LoadAll(loaded, scene, order[..i + 1])))
  {
    BuiltPrefix(objs, loaded, scene, order, i + 1);
    BuiltInit(objs[..i + 1], loaded, scene, order[..i + 1]);
  }

  /** Dropping the last object and its mesh. */
  lemma BuiltInit(objs: seq<RenderableObject>, loaded: seq<Texture>, scene: Scene, order: seq<nat>)
    requires WellFormed(scene) && InRange(order, |scene.meshes|) && Built(objs, loaded, scene, order) && objs != []
    ensures Built(objs[..|objs| - 1], loaded, scene, order[..|order| - 1])
    ensures BuiltFrom(objs[|objs| - 1], scene, order[|order| - 1], Names(LoadAll(loaded, scene, order)))
  {
  }

  /** One more object, built from one more mesh. */
  lemma BuiltSnoc(objs: seq<RenderableObject>, o: RenderableObject, loaded: seq<Texture>, scene: Scene, order: seq<nat>, m: nat)
    requires WellFormed(scene) && InRange(order, |scene.meshes|) && Built(objs, loaded, scene, order) && m < |scene.meshes|
    requires BuiltFrom(o, scene, m, Names(LoadAll(loaded, scene, order + [m])))
    ensures Built(objs + [o], loaded, scene, order + [m])
  {
    assert (objs + [o])[..|objs|] == objs;
    assert (order + [m])[..|order|] == order;
  }

  /** Objects built from one batch of meshes followed by objects built from
      the next batch were built from both batches. */
  lemma {:induction false} BuiltAppend(a: seq<RenderableObject>, b: seq<RenderableObject>, loaded: seq<Texture>, scene: Scene, oa: seq<nat>, ob: seq<nat>)
    requires WellFormed(scene) && InRange(oa, |scene.meshes|) && InRange(ob, |scene.meshes|)
    requires Built(a, loaded, scene, oa)
    requires Built(b, LoadAll(loaded, scene, oa), scene, ob)
    ensures Built(a + b, loaded, scene, oa + ob)
    decreases |b|
  {
    if b == [] {
      assert a + b == a && oa + ob == oa;
    } else {
      var n := |b| - 1;
      BuiltInit(b, LoadAll(loaded, scene, oa), scene, ob);
      BuiltAppend(a, b[..n], loaded, scene, oa, ob[..n]);
      LoadAllAppend(loaded, scene, oa, ob);
      BuiltAppendLast(a, b, loaded, scene, oa, ob);
    }
  }

  /** The step of `BuiltAppend`: the last object of the second batch. */
  lemma BuiltAppendLast(a: seq<RenderableObject>, b: seq<RenderableObject>, loaded: seq<Texture>, scene: Scene, oa: seq<nat>, ob: seq<nat>)
    requires WellFormed(scene) && InRange(oa + ob, |scene.meshes|) && b != [] && |b| == |ob|
    requires InRange(oa + ob[..|ob| - 1], |scene.meshes|)
    requires Built(a + b[..|b| - 1], loaded, scene, oa + ob[..|ob| - 1])
    requires BuiltFrom(b[|b| - 1], scene, ob[|ob| - 1], Names(LoadAll(loaded, scene, oa + ob)))
    ensures Built(a + b, loaded, scene, oa + ob)
  {
    var n := |b| - 1;
    ConcatAssociative(a, b[..n], [b[n]]);
    ConcatAssociative(oa, ob[..n], [ob[n]]);
    InitLast(b);
    InitLast(ob);
    BuiltSnoc(a + b[..n], b[n], loaded, scene, oa + ob[..n], ob[n]);
  }

  /** What importing the meshes `order` of `scene` leaves behind, from the
      mesh list `meshes0`, the loaded list `loaded0` and the registry
      `registry0`: the old meshes followed by one new object per mesh,
      built from it; the loaded list advanced over those meshes'
      materials; the first new object registered unless the name was
      taken. */
  ghost predicate Imported(meshes0: seq<RenderableObject>, loaded0: seq<Texture>, registry0: map<string, RenderableObject?>,
                           scene: Scene, order: seq<nat>,
                           meshes: seq<RenderableObject>, loaded: seq<Texture>, registry: map<string, RenderableObject?>)
    requires WellFormed(scene)
    reads meshes
  {
    InRange(order, |scene.meshes|) && meshes0 <= meshes
    && Built(meshes[|meshes0|..], loaded0, scene, order)
    && (loaded, registry) == (LoadAll(loaded0, scene, order), RegisteredAfter(registry0, meshes[|meshes0|..]))
  }

  /** Importing nothing changes nothing. */
  lemma ImportedNothing(meshes: seq<RenderableObject>, loaded: seq<Texture>, registry: map<string, RenderableObject?>, scene: Scene)
    requires WellFormed(scene)
    ensures Imported(meshes, loaded, registry, scene, [], meshes, loaded, registry)
  {
    assert meshes[|meshes|..] == [];
  }

  /** Importing one mesh: one object built from it, the material's paths
      looked up, the object offered to the registry. */
  lemma ImportedOne(meshes: seq<RenderableObject>, loaded: seq<Texture>, registry: map<string, RenderableObject?>,
                    scene: Scene, m: nat, o: RenderableObject, loaded': seq<Texture>, registry': map<string, RenderableObject?>)
    requires WellFormed(scene) && m < |scene.meshes|
    requires loaded' == MaterialLookup(loaded, scene.materials[scene.meshes[m].materialIndex]).loaded
    requires BuiltFrom(o, scene, m, Names(loaded'))
    requires registry' == Insert(registry, MeshName, o)
    ensures Imported(meshes, loaded, registry, scene, [m], meshes + [o], loaded', registry')
  {
    assert (meshes + [o])[..|meshes|] == meshes;
    assert (meshes + [o])[|meshes|..] == [o];
    assert [m][..1] == [m] && [m][..0] == [];
  }

  /** One more of the listed meshes `ms` imported after the ones before it. */
  lemma ImportedMesh(m0: seq<RenderableObject>, l0: seq<Texture>, r0: map<string, RenderableObject?>,
                     m1: seq<RenderableObject>, l1: seq<Texture>, r1: map<string, RenderableObject?>,
                     scene: Scene, ms: seq<nat>, i: nat, o: RenderableObject, l2: seq<Texture>, r2: map<string, RenderableObject?>)
    requires WellFormed(scene)
    requires i < |ms| && ms[i] < |scene.meshes|
    requires Imported(m0, l0, r0, scene, ms[..i], m1, l1, r1)
    requires l2 == MaterialLookup(l1, scene.materials[scene.meshes[ms[i]].materialIndex]).loaded
    requires BuiltFrom(o, scene, ms[i], Names(l2))
    requires r2 == Insert(r1, MeshName, o)
    ensures Imported(m0, l0, r0, scene, ms[..i + 1], m1 + [o], l2, r2)
  {
    ImportedOne(m1, l1, r1, scene, ms[i], o, l2, r2);
    ImportedAppend(m0, l0, r0, m1, l1, r1, m1 + [o], l2, r2, scene, ms[..i], [ms[i]]);
    TakeOneMore(ms, i);
  }

  /** Importing one batch of meshes after another is importing both. */
  lemma ImportedAppend(m0: seq<RenderableObject>, l0: seq<Texture>, r0: map<string, RenderableObject?>,
                       m1: seq<RenderableObject>, l1: seq<Texture>, r1: map<string, RenderableObject?>,
                       m2: seq<RenderableObject>, l2: seq<Texture>, r2: map<string, RenderableObject?>,
                       scene: Scene, a: seq<nat>, b: seq<nat>)
    requires WellFormed(scene)
    requires Imported(m0, l0, r0, scene, a, m1, l1, r1)
    requires Imported(m1, l1, r1, scene, b, m2, l2, r2)
    ensures Imported(m0, l0, r0, scene, a + b, m2, l2, r2)
  {
    var na, nb := m1[|m0|..], m2[|m1|..];
    assert m2[..|m0|] == m1[..|m0|];
    assert m2[|m0|..] == na + nb;
    BuiltAppend(na, nb, l0, scene, a, b);
    LoadAllAppend(l0, scene, a, b);
    RegisteredAfterAppend(r0, na, nb);
  }

  /** The visiting order of the subtrees of `n`'s first `c` children. */
  function ChildrenPrefix(n: Node, c: nat): seq<nat>
    requires c <= |n.children|
  {
    if c == 0 then [] else ChildrenPrefix(n, c - 1) + Order(n.children[c - 1])
  }

  /** The subtrees of the first `c` children followed by the rest are all
      the subtrees. */
  lemma {:induction false} ChildrenSplit(n: Node, c: nat)
    requires c <= |n.children|
    ensures ChildrenPrefix(n, c) + ChildrenOrder(n, c) == ChildrenOrder(n, 0)
  {
    if c > 0 {
      ChildrenSplit(n, c - 1);
      ConcatAssociative(ChildrenPrefix(n, c - 1), Order(n.children[c - 1]), ChildrenOrder(n, c));
    }
  }

  /** One more child's subtree imported after the node's meshes and the
      subtrees of the children before it. */
  lemma ImportedChild(m0: seq<RenderableObject>, l0: seq<Texture>, r0: map<string, RenderableObject?>,
                      m1: seq<RenderableObject>, l1: seq<Texture>, r1: map<string, RenderableObject?>,
                      m2: seq<RenderableObject>, l2: seq<Texture>, r2: map<string, RenderableObject?>,
                      scene: Scene, n: Node, c: nat)
    requires WellFormed(scene)
    requires c < |n.children|
    requires Imported(m0, l0, r0, scene, n.meshes + ChildrenPrefix(n, c), m1, l1, r1)
    requires Imported(m1, l1, r1, scene, Order(n.children[c]), m2, l2, r2)
    ensures Imported(m0, l0, r0, scene, n.meshes + ChildrenPrefix(n, c + 1), m2, l2, r2)
  {
    ImportedAppend(m0, l0, r0, m1, l1, r1, m2, l2, r2, scene, n.meshes + ChildrenPrefix(n, c), Order(n.children[c]));
    ConcatAssociative(n.meshes, ChildrenPrefix(n, c), Order(n.children[c]));
  }

  /** The node's meshes followed by the subtrees of all its children is
      the node's whole subtree. */
  lemma ImportedChildren(m0: seq<RenderableObject>, l0: seq<Texture>, r0: map<string, RenderableObject?>,
                         m1: seq<RenderableObject>, l1: seq<Texture>, r1: map<string, RenderableObject?>,
                         scene: Scene, n: Node)
    requires WellFormed(scene)
    requires Imported(m0, l0, r0, scene, n.meshes + ChildrenPrefix(n, |n.children|), m1, l1, r1)
    ensures Imported(m0, l0, r0, scene, Order(n), m1, l1, r1)
  {
    ChildrenSplit(n, |n.children|);
    assert Order(n) == n.meshes + ChildrenPrefix(n, |n.children|);
  }

  // ---------------------------------------------------------------- the loops of ProcessMesh

  /** The vertex loop of `ProcessMesh`. */
  method BuildVertices(mesh: Mesh) returns (vertices: seq<Vertex>)
    requires ChannelCovers(mesh)
    ensures vertices == MeshVertices(mesh)
  {
    vertices := [];
    var i := 0;
    while i < |mesh.positions|
      invariant 0 <= i <= |mesh.positions|
      invariant vertices == MeshVertices(mesh)[..i]
    {
      var textureCoords := if mesh.textureCoords.Some? then mesh.textureCoords.value[i] else Zero2;
      vertices := vertices + [Vertex(mesh.positions[i], Zero3, Zero3, textureCoords)];
      i := i + 1;
    }
  }

  /** The face loop of `ProcessMesh`: every face's indices, in order. */
  method FlattenFaces(faces: seq<seq<nat>>) returns (indices: seq<nat>)
    ensures indices == Flatten(faces)
  {
    indices := [];
    var i := 0;
    while i < |faces|
      invariant 0 <= i <= |faces|
      invariant indices == Flatten(faces[..i])
    {
      var face := faces[i];
      var j := 0;
      while j < |face|
        invariant 0 <= j <= |face|
        invariant indices == Flatten(faces[..i]) + face[..j]
      {
        assert face[..j + 1] == face[..j] + [face[j]];
        indices := indices + [face[j]];
        j := j + 1;
      }
      assert faces[..i + 1][..i] == faces[..i];
      i := i + 1;
    }
    assert faces[..|faces|] == faces;
  }

  class Model {
    var loadedTextures: seq<Texture>
    var meshes: seq<RenderableObject>
    var gammaCorrection: bool

    constructor ()
      ensures loadedTextures == [] && meshes == [] && !gammaCorrection
    {
      loadedTextures := [];
      meshes := [];
      gammaCorrection := false;
    }

    /** `GenerateModel`: the model at `localPath` under the asset domain
        `domain`. */
    method GenerateModel(localPath: string, domain: string, files: map<string, Scene>, gl: Context, registry: Registry)
      requires registry.Valid() && forall p :: p in files ==> WellFormed(files[p])
      modifies this`meshes, this`loadedTextures, gl, registry`renderableObjects
      ensures gl.errors == old(gl.errors)
      ensures registry.Valid()
      ensures var path := AssetPath(domain, localPath);
        if Unusable(files, path) then
          gl.trace == old(gl.trace) + [LogError(NonFatal)] && meshes == old(meshes)
          && loadedTextures == old(loadedTextures) && registry.renderableObjects == old(registry.renderableObjects)
        else
          Imported(old(meshes), old(loadedTextures), old(registry.renderableObjects), files[path], Order(files[path].root.value),
                   meshes, loadedTextures, registry.renderableObjects)
    {
      LoadModel(AssetPath(domain, localPath), files, gl, registry);
    }

    /** A scene that is missing, incomplete or without a root is reported
        as a non-fatal error and nothing else happens; otherwise the tree
        is walked from the root. */
    method LoadModel(path: string, files: map<string, Scene>, gl: Context, registry: Registry)
      requires registry.Valid() && forall p :: p in files ==> WellFormed(files[p])
      modifies this`meshes, this`loadedTextures, gl, registry`renderableObjects
      ensures gl.errors == old(gl.errors)
      ensures registry.Valid()
      ensures if Unusable(files, path) then
          gl.trace == old(gl.trace) + [LogError(NonFatal)] && meshes == old(meshes)
          && loadedTextures == old(loadedTextures) && registry.renderableObjects == old(registry.renderableObjects)
        else
          Imported(old(meshes), old(loadedTextures), old(registry.renderableObjects), files[path], Order(files[path].root.value),
                   meshes, loadedTextures, registry.renderableObjects)
    {
      if path !in files || files[path].incomplete || files[path].root.None? {
        gl.Call(LogError(NonFatal));
        return;
      }
      var scene := files[path];
      ProcessBone(scene.root.value, scene, gl, registry);
    }

    /** The node's own meshes, in order, then each child's subtree. */
    method ProcessBone(node: Node, scene: Scene, gl: Context, registry: Registry)
      requires WellFormed(scene) && RefersWithin(node, |scene.meshes|) && registry.Valid()
      modifies this`meshes, this`loadedTextures, gl, registry`renderableObjects
      ensures gl.errors == old(gl.errors)
      ensures registry.Valid()
      ensures Imported(old(meshes), old(loadedTextures), old(registry.renderableObjects), scene, Order(node),
                       meshes, loadedTextures, registry.renderableObjects)
      decreases node, 2
    {
      ghost var m0, l0, r0 := meshes, loadedTextures, registry.renderableObjects;
      ProcessMeshes(node, scene, gl, registry);
      ProcessChildren(node, scene, gl, registry, m0, l0, r0);
      ImportedChildren(m0, l0, r0, meshes, loadedTextures, registry.renderableObjects, scene, node);
    }

    /** The second loop of `ProcessBone`: each child's subtree, in order,
        after the node's own meshes. */
    method ProcessChildren(node: Node, scene: Scene, gl: Context, registry: Registry,
                           ghost m0: seq<RenderableObject>, ghost l0: seq<Texture>, ghost r0: map<string, RenderableObject?>)
      requires WellFormed(scene) && RefersWithin(node, |scene.meshes|) && registry.Valid()
      requires Imported(m0, l0, r0, scene, node.meshes + ChildrenPrefix(node, 0), meshes, loadedTextures, registry.renderableObjects)
      modifies this`meshes, this`loadedTextures, gl, registry`renderableObjects
      ensures gl.errors == old(gl.errors)
      ensures registry.Valid()
      ensures Imported(m0, l0, r0, scene, node.meshes + ChildrenPrefix(node, |node.children|),
                       meshes, loadedTextures, registry.renderableObjects)
      decreases node, 1
    {
      var c := 0;
      while c < |node.children|
        invariant 0 <= c <= |node.children|
        invariant Imported(m0, l0, r0, scene, node.meshes + ChildrenPrefix(node, c), meshes, loadedTextures, registry.renderableObjects)
        invariant registry.Valid() && gl.errors == old(gl.errors)
      {
        c := ProcessChild(node, c, scene, gl, registry, m0, l0, r0);
      }
    }

    /** One turn of the second loop of `ProcessBone`: child `c`'s subtree,
        after the node's meshes and the subtrees of the children before it. */
    method ProcessChild(node: Node, c: nat, scene: Scene, gl: Context, registry: Registry,
                        ghost m0: seq<RenderableObject>, ghost l0: seq<Texture>, ghost r0: map<string, RenderableObject?>)
                        returns (next: nat)
      requires c < |node.children| && WellFormed(scene) && RefersWithin(node, |scene.meshes|) && registry.Valid()
      requires Imported(m0, l0, r0, scene, node.meshes + ChildrenPrefix(node, c), meshes, loadedTextures, registry.renderableObjects)
      modifies this`meshes, this`loadedTextures, gl, registry`renderableObjects
      ensures gl.errors == old(gl.errors)
      ensures next == c + 1 && registry.Valid()
      ensures Imported(m0, l0, r0, scene, node.meshes + ChildrenPrefix(node, next), meshes, loadedTextures, registry.renderableObjects)
      decreases node, 0
    {
      next := c + 1;
      ghost var m1, l1, r1 := meshes, loadedTextures, registry.renderableObjects;
      ProcessBone(node.children[c], scene, gl, registry);
      ImportedChild(m0, l0, r0, m1, l1, r1, meshes, loadedTextures, registry.renderableObjects, scene, node, c);
    }

    /** The first loop of `ProcessBone`: each mesh the node refers to is
        processed and its object appended to `meshes`. */
    method ProcessMeshes(node: Node, scene: Scene, gl: Context, registry: Registry)
      requires WellFormed(scene) && RefersWithin(node, |scene.meshes|) && registry.Valid()
      modifies this`meshes, this`loadedTextures, gl, registry`renderableObjects
      ensures gl.errors == old(gl.errors)
      ensures registry.Valid()
      ensures Imported(old(meshes), old(loadedTextures), old(registry.renderableObjects), scene, node.meshes + ChildrenPrefix(node, 0),
                       meshes, loadedTextures, registry.renderableObjects)
    {
      ghost var m0, l0, r0 := meshes, loadedTextures, registry.renderableObjects;
      ImportedNothing(m0, l0, r0, scene);
      var i := 0;
      while i < |node.meshes|
        invariant 0 <= i <= |node.meshes|
        invariant registry.Valid() && gl.errors == old(gl.errors)
        invariant Imported(m0, l0, r0, scene, node.meshes[..i], meshes, loadedTextures, registry.renderableObjects)
      {
        ProcessMeshAt(node, i, scene, gl, registry, m0, l0, r0);
        i := i + 1;
      }
      assert node.meshes[..|node.meshes|] == node.meshes + ChildrenPrefix(node, 0);
    }

    /** One turn of the first loop of `ProcessBone`: the node's mesh `i`
        is processed and its object appended to `meshes`. */
    method ProcessMeshAt(node: Node, i: nat, scene: Scene, gl: Context, registry: Registry,
                         ghost m0: seq<RenderableObject>, ghost l0: seq<Texture>, ghost r0: map<string, RenderableObject?>)
      requires i < |node.meshes| && WellFormed(scene) && RefersWithin(node, |scene.meshes|) && registry.Valid()
      requires Imported(m0, l0, r0, scene, node.meshes[..i], meshes, loadedTextures, registry.renderableObjects)
      modifies this`meshes, this`loadedTextures, gl, registry`renderableObjects
      ensures gl.errors == old(gl.errors)
      ensures registry.Valid()
      ensures Imported(m0, l0, r0, scene, node.meshes[..i + 1], meshes, loadedTextures, registry.renderableObjects)
    {
      ghost var m1, l1, r1 := meshes, loadedTextures, registry.renderableObjects;
      var mesh := scene.meshes[node.meshes[i]];
      var obj := ProcessMeshShape(mesh, scene, gl, registry);
      meshes := meshes + [obj];
      ImportedMesh(m0, l0, r0, m1, l1, r1, scene, node.meshes, i, obj, loadedTextures, registry.renderableObjects);
    }

    /** `ProcessMesh`, as far as the import loop relies on it. */
    method ProcessMeshShape(mesh: Mesh, scene: Scene, gl: Context, registry: Registry) returns (obj: RenderableObject)
      requires MeshWithin(mesh, |scene.materials|) && registry.Valid()
      modifies this`loadedTextures, gl, registry`renderableObjects
      ensures gl.errors == old(gl.errors)
      ensures fresh(obj) && registry.Valid()
      ensures obj.name == MeshName && !obj.advanced && obj.shader == DefaultShader
      ensures obj.vertices == MeshVertices(mesh) && obj.indices == Flatten(mesh.faces)
      ensures loadedTextures == MaterialLookup(old(loadedTextures), scene.materials[mesh.materialIndex]).loaded
      ensures obj.textures.Keys == Names(loadedTextures)
      ensures registry.renderableObjects == Insert(old(registry.renderableObjects), MeshName, obj)
    {
      obj := ProcessMesh(mesh, scene, gl, registry);
    }

    /** One mesh: its vertices and flattened faces, the material's
        diffuse, specular and height paths looked up (the collected list is
        not used), then a new object for the mesh. */
    method ProcessMesh(mesh: Mesh, scene: Scene, gl: Context, registry: Registry) returns (obj: RenderableObject)
      requires MeshWithin(mesh, |scene.materials|) && registry.Valid()
      modifies this`loadedTextures, gl, registry`renderableObjects
      ensures fresh(obj) && registry.Valid()
      ensures obj.name == MeshName && !obj.advanced && obj.shader == DefaultShader
      ensures obj.vertices == MeshVertices(mesh) && obj.indices == Flatten(mesh.faces)
      ensures loadedTextures == MaterialLookup(old(loadedTextures), scene.materials[mesh.materialIndex]).loaded
      ensures obj.textures.Keys == Names(loadedTextures)
      ensures UploadState(obj, gl, false)
        == PlainOutcome(MeshName, false, |MeshVertices(mesh)|, |Flatten(mesh.faces)|, InsertAll(map[], loadedTextures), InitialBuffers,
                        old(gl.trace), old(gl.nextName), gl.images)
      ensures gl.errors == old(gl.errors)
      ensures registry.renderableObjects == Insert(old(registry.renderableObjects), MeshName, obj)
    {
      var vertices := BuildVertices(mesh);
      var indices := FlattenFaces(mesh.faces);
      var material := scene.materials[mesh.materialIndex];
      var diffuseMaps := LoadTextures(material.diffuse, material.name, Diffuse);
      var textures := diffuseMaps;
      var specularMaps := LoadTextures(material.specular, material.name, Specular);
      textures := textures + specularMaps;
      var normalMaps := LoadTextures(material.height, material.name, Normal);
      textures := textures + normalMaps;
      obj := CreateMeshObject(vertices, indices, gl, registry);
    }

    /** The end of `ProcessMesh`: the object registered under `mesh` with
        the given geometry, every loaded texture offered to it, its data
        uploaded, and the object offered to the registry. */
    method CreateMeshObject(vertices: seq<Vertex>, indices: seq<nat>, gl: Context, registry: Registry) returns (obj: RenderableObject)
      requires registry.Valid()
      modifies gl, registry`renderableObjects
      ensures fresh(obj) && registry.Valid()
      ensures obj.name == MeshName && !obj.advanced && obj.shader == DefaultShader
      ensures obj.vertices == vertices && obj.indices == indices
      ensures obj.textures.Keys == Names(loadedTextures)
      ensures UploadState(obj, gl, false)
        == PlainOutcome(MeshName, false, |vertices|, |indices|, InsertAll(map[], loadedTextures), InitialBuffers,
                        old(gl.trace), old(gl.nextName), gl.images)
      ensures gl.errors == old(gl.errors)
      ensures registry.renderableObjects == Insert(old(registry.renderableObjects), MeshName, obj)
    {
      obj := NewMeshObject(vertices, indices);
      InsertAllNames(loadedTextures);
      obj.GeneratePlainRawData(gl);
      registry.RegisterRenderableObject(obj);
    }

    /** A new object under `mesh` with the given geometry, the default
        shader, and every loaded texture offered to it. */
    method NewMeshObject(vertices: seq<Vertex>, indices: seq<nat>) returns (obj: RenderableObject)
      ensures fresh(obj)
      ensures obj.name == MeshName && !obj.advanced && obj.shader == DefaultShader
      ensures obj.vertices == vertices && obj.indices == indices
      ensures obj.bufferCalls == [] && obj.pointerCalls == [] && !obj.completelyReplaceDefaultGLPointerCalls
      ensures obj.textures == InsertAll(map[], loadedTextures) && obj.buffers == InitialBuffers
    {
      obj := RenderableObject.Register(MeshName, vertices, indices, false, false, DefaultShader);
      OfferLoaded(obj);
    }

    /** Every loaded texture offered to `obj`, in order. */
    method OfferLoaded(obj: RenderableObject)
      requires obj.textures == map[]
      modifies obj`textures
      ensures obj.textures == InsertAll(map[], loadedTextures)
    {
      var i := 0;
      while i < |loadedTextures|
        invariant 0 <= i <= |loadedTextures|
        invariant obj.textures == InsertAll(map[], loadedTextures[..i])
      {
        assert loadedTextures[..i + 1][..i] == loadedTextures[..i];
        obj.RegisterTexture(loadedTextures[i]);
        i := i + 1;
      }
      assert loadedTextures[..|loadedTextures|] == loadedTextures;
    }

    /** The textures of one slot of a material: each path is looked up in
        the loaded list; a hit is collected, a miss adds a new texture. */
    method LoadTextures(paths: seq<string>, materialName: string, kind: TextureType) returns (textures: seq<Texture>)
      modifies this`loadedTextures
      ensures var r := LoadPaths(old(loadedTextures), paths, materialName, kind);
        loadedTextures == r.loaded && textures == r.found
    {
      textures := [];
      var i := 0;
      while i < |paths|
        invariant 0 <= i <= |paths|
        invariant var r := LoadPaths(old(loadedTextures), paths[..i], materialName, kind);
          loadedTextures == r.loaded && textures == r.found
      {
        LoadPathsTake(old(loadedTextures), paths, i, materialName, kind);
        textures := LoadTexture(paths[i], materialName, kind, textures);
        i := i + 1;
      }
      assert paths[..|paths|] == paths;
    }

    /** One path: the first loaded texture with that path is collected
        onto `textures`; with none, a new texture is loaded. */
    method LoadTexture(path: string, materialName: string, kind: TextureType, textures: seq<Texture>) returns (collected: seq<Texture>)
      modifies this`loadedTextures
      ensures match FirstWithPath(old(loadedTextures), path)
        case Some(i) => loadedTextures == old(loadedTextures) && collected == textures + [old(loadedTextures)[i]]
        case None =>
          loadedTextures == old(loadedTextures) + [Register(path, materialName, PropertiesType(kind), DefaultDomain)]
          && collected == textures
    {
      collected := textures;
      var skip := false;
      var j := 0;
      while j < |loadedTextures|
        invariant 0 <= j <= |loadedTextures| && loadedTextures == old(loadedTextures)
        invariant forall k :: 0 <= k < j ==> loadedTextures[k].path != path
        invariant !skip && collected == textures
      {
        if loadedTextures[j].path == path {
          collected := collected + [loadedTextures[j]];
          skip := true;
          break;
        }
        j := j + 1;
      }
      if !skip {
        loadedTextures := loadedTextures + [Register(path, materialName, PropertiesType(kind), DefaultDomain)];
      }
    }
  }
}
