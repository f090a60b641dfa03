/** The renderer's registry: the name-keyed table of renderable objects, the
    deferred queue of shader-uniform requests, and the per-frame passes
    over the table (`PostShaderCalls`, `RenderObjects`, `CleanUpObjects`). */
module Renderer {
  import opened Strings
  import opened StdMap
  import opened Glm
  import opened Gl
  import opened Textures
  import opened Renderables

  /** The camera state the render pass reads. */
  datatype Camera = Camera(position: Vec3, projection: Mat, view: Mat)

  /** A deferred uniform request: the target object's name, the uniform's
      name, the C++ type of the value and the value itself. */
  datatype ShaderCall = ShaderCall(objectName: string, variableName: string, typeId: TypeId, value: UniformValue)

  // ---------------------------------------------------------------------
  // The registry's table

  /** The objects a table points at (null included). */
  function Objects(m: map<string, RenderableObject?>): set<RenderableObject?>
  {
    set k | k in m :: m[k]
  }

  predicate NoNull(m: map<string, RenderableObject?>)
  {
    forall k :: k in m ==> m[k] != null
  }

  /** Every object is filed under its own name, as registration files it. */
  predicate KeyedByName(m: map<string, RenderableObject?>)
    reads m.Values`name
  {
    forall k :: k in m && m[k] != null ==> m[k].name == k
  }

  /** The registered objects in iteration order. */
  function InOrder(m: map<string, RenderableObject?>): (r: seq<RenderableObject>)
    requires NoNull(m)
    ensures |r| == |m|
  {
    var keys := Keys(m);
    seq(|keys|, i requires 0 <= i < |keys| => m[keys[i]])
  }

  /** Every registered object is visited. */
  lemma InOrderCovers(m: map<string, RenderableObject?>)
    requires NoNull(m)
    ensures forall k :: k in m ==> m[k] in InOrder(m)
  {
    var keys := Keys(m);
    forall k | k in m
      ensures m[k] in InOrder(m)
    {
      var i :| 0 <= i < |keys| && keys[i] == k;
      assert InOrder(m)[i] == m[k];
    }
  }

  /** A table filed by name holds no object twice. */
  lemma InOrderDistinct(m: map<string, RenderableObject?>)
    requires NoNull(m) && KeyedByName(m)
    ensures forall i, j :: 0 <= i < j < |InOrder(m)| ==> InOrder(m)[i] != InOrder(m)[j]
  {
    var keys := Keys(m);
    KeysAscending(m);
    forall i, j | 0 <= i < j < |keys|
      ensures InOrder(m)[i] != InOrder(m)[j]
    {
      SortedDistinct(keys, i, j);
    }
  }

  // ---------------------------------------------------------------------
  // PostShaderCalls

  /** What one queued request does when it is compared against the object
      named `owner`: nothing if it is addressed elsewhere, a uniform upload
      if its type is one of the nine the shader understands, and a
      non-fatal "Invalid type" error otherwise. */
  function UniformCalls(call: ShaderCall, owner: string): (r: seq<GlCall>)
    ensures |r| <= 1
    ensures r != [] <==> owner == call.objectName
    ensures r != [] ==> r[0] == if Recognised(call.typeId)
                                then SetUniform(owner, call.variableName, call.value)
                                else LogError(NonFatal)
  {
    if owner != call.objectName then []
    else if Recognised(call.typeId) then [SetUniform(owner, call.variableName, call.value)]
    else [LogError(NonFatal)]
  }

  /** The registry position visited after position `j`, wrapping round. */
  function NextSlot(j: nat, n: nat): (r: nat)
    ensures j < n ==> r < n
  {
    if j + 1 >= n then 0 else j + 1
  }

  /** The calls `PostShaderCalls` makes: each iteration of the inner loop
      compares the queue's front against the next object in the table and
      pops it, whether or not the names agree. `j` is the next object's
      position. The drain stops once the queue is empty. */
  function Pairing(queue: seq<ShaderCall>, names: seq<string>, j: nat): seq<GlCall>
    decreases |queue|
  {
    if queue == [] || j >= |names| then []
    else UniformCalls(queue[0], names[j]) + Pairing(queue[1..], names, NextSlot(j, |names|))
  }

  /** The position `i` steps after position `j`, wrapping round. */
  function Advance(j: nat, i: nat, n: nat): (r: nat)
    ensures j < n ==> r < n
  {
    if i == 0 then j else NextSlot(Advance(j, i - 1, n), n)
  }

  /** The same calls described request by request: the `i`-th request is
      compared against the object `i` positions after the `j`-th only. */
  function RoundRobin(queue: seq<ShaderCall>, names: seq<string>, j: nat): seq<GlCall>
    requires j < |names|
    decreases |queue|
  {
    if queue == [] then []
    else
      RoundRobin(queue[..|queue| - 1], names, j)
      + UniformCalls(queue[|queue| - 1], names[Advance(j, |queue| - 1, |names|)])
  }

  lemma {:induction false} AdvanceFront(j: nat, i: nat, n: nat)
    ensures Advance(NextSlot(j, n), i, n) == Advance(j, i + 1, n)
  {
    if i > 0 {
      AdvanceFront(j, i - 1, n);
    }
  }

  /** The last request of a non-empty queue. */
  lemma RoundRobinSnoc(queue: seq<ShaderCall>, names: seq<string>, j: nat)
    requires queue != [] && j < |names|
    ensures RoundRobin(queue, names, j)
      == RoundRobin(queue[..|queue| - 1], names, j) + UniformCalls(queue[|queue| - 1], names[Advance(j, |queue| - 1, |names|)])
  {
  }

  lemma {:induction false} RoundRobinFront(queue: seq<ShaderCall>, names: seq<string>, j: nat)
    requires queue != [] && j < |names|
    ensures NextSlot(j, |names|) < |names|
    ensures RoundRobin(queue, names, j)
      == UniformCalls(queue[0], names[j]) + RoundRobin(queue[1..], names, NextSlot(j, |names|))
    decreases |queue|
  {
    var n := |names|;
    var nj := NextSlot(j, n);
    var first := UniformCalls(queue[0], names[j]);
    if |queue| == 1 {
      RoundRobinSnoc(queue, names, j);
      assert queue[..0] == [];
      assert queue[1..] == [];
      assert RoundRobin(queue, names, j) == [] + first;
      assert RoundRobin(queue[1..], names, nj) == [];
      assert first + [] == first;
    } else {
      var init := queue[..|queue| - 1];
      RoundRobinFront(init, names, j);
      SplitFirstAndLast(queue, names, j);
      SplitRestLast(queue, names, j);
      ConcatAssociative(first, RoundRobin(init[1..], names, nj),
                        UniformCalls(queue[|queue| - 1], names[Advance(j, |queue| - 1, n)]));
    }
  }

  /** Both ends of a queue of two or more requests, given the first of all
      but its last. */
  lemma {:induction false} SplitFirstAndLast(queue: seq<ShaderCall>, names: seq<string>, j: nat)
    requires |queue| >= 2 && j < |names|
    requires RoundRobin(queue[..|queue| - 1], names, j)
      == UniformCalls(queue[..|queue| - 1][0], names[j]) + RoundRobin(queue[..|queue| - 1][1..], names, NextSlot(j, |names|))
    ensures RoundRobin(queue, names, j)
      == UniformCalls(queue[0], names[j]) + RoundRobin(queue[..|queue| - 1][1..], names, NextSlot(j, |names|))
         + UniformCalls(queue[|queue| - 1], names[Advance(j, |queue| - 1, |names|)])
  {
    RoundRobinSnoc(queue, names, j);
    assert queue[..|queue| - 1][0] == queue[0];
  }

  /** The requests after the first of a queue of two or more, split before
      their last. */
  lemma {:induction false} SplitRestLast(queue: seq<ShaderCall>, names: seq<string>, j: nat)
    requires |queue| >= 2 && j < |names|
    ensures RoundRobin(queue[1..], names, NextSlot(j, |names|))
      == RoundRobin(queue[..|queue| - 1][1..], names, NextSlot(j, |names|))
         + UniformCalls(queue[|queue| - 1], names[Advance(j, |queue| - 1, |names|)])
  {
    var rest := queue[1..];
    RoundRobinSnoc(rest, names, NextSlot(j, |names|));
    AdvanceFront(j, |rest| - 1, |names|);
    assert |rest| - 1 + 1 == |queue| - 1;
    assert rest[|rest| - 1] == queue[|queue| - 1];
    TrimEnds(queue);
  }

  /** `PostShaderCalls` hands the `i`-th request to the object at position
      `(j + i) mod n`, and to no other. */
  lemma {:induction false} PairingRoundRobin(queue: seq<ShaderCall>, names: seq<string>, j: nat)
    requires j < |names|
    ensures Pairing(queue, names, j) == RoundRobin(queue, names, j)
    decreases |queue|
  {
    if queue != [] {
      PairingRoundRobin(queue[1..], names, NextSlot(j, |names|));
      RoundRobinFront(queue, names, j);
    }
  }

  /** A request addressed to no registered object is popped and lost. */
  lemma {:induction false} UnregisteredTargetsIgnored(queue: seq<ShaderCall>, names: seq<string>, j: nat)
    requires forall i, k :: 0 <= i < |queue| && 0 <= k < |names| ==> queue[i].objectName != names[k]
    ensures Pairing(queue, names, j) == []
    decreases |queue|
  {
    if queue != [] && j < |names| {
      UnregisteredTargetsIgnored(queue[1..], names, NextSlot(j, |names|));
    }
  }

  /** The uniform uploads a sequence of well-typed requests asks for. */
  function AsUniforms(queue: seq<ShaderCall>): (r: seq<GlCall>)
  {
    seq(|queue|, i requires 0 <= i < |queue| => SetUniform(queue[i].objectName, queue[i].variableName, queue[i].value))
  }

  /** With one registered object, every well-typed request addressed to it
      is delivered, in request order. */
  lemma {:induction false} SoleObjectReceivesAll(queue: seq<ShaderCall>, name: string)
    requires forall i :: 0 <= i < |queue| ==> queue[i].objectName == name && Recognised(queue[i].typeId)
    ensures Pairing(queue, [name], 0) == AsUniforms(queue)
    decreases |queue|
  {
    if queue != [] {
      SoleObjectReceivesAll(queue[1..], name);
      assert AsUniforms(queue) == [SetUniform(name, queue[0].variableName, queue[0].value)] + AsUniforms(queue[1..]);
    }
  }

  /** Whatever `PostShaderCalls` emits is one of the queued uniform uploads
      delivered to the object it names, or a non-fatal error. */
  lemma {:induction false} PairingProvenance(queue: seq<ShaderCall>, names: seq<string>, j: nat, c: GlCall)
    requires c in Pairing(queue, names, j)
    ensures c == LogError(NonFatal)
      || exists i :: 0 <= i < |queue| && c == SetUniform(queue[i].objectName, queue[i].variableName, queue[i].value)
    decreases |queue|
  {
    var n := NextSlot(j, |names|);
    if c in UniformCalls(queue[0], names[j]) {
      assert c == LogError(NonFatal) || c == SetUniform(queue[0].objectName, queue[0].variableName, queue[0].value);
    } else {
      PairingProvenance(queue[1..], names, n, c);
      if c != LogError(NonFatal) {
        var i :| 0 <= i < |queue[1..]| && c == SetUniform(queue[1..][i].objectName, queue[1..][i].variableName, queue[1..][i].value);
        assert queue[1..][i] == queue[i + 1];
      }
    }
  }

  /** With two or more objects registered, a lone request for any object
      but the first in key order is compared only against the first and is
      dropped without effect, though its target is registered. */
  lemma LoneRequestForLaterObjectIsDropped(c: ShaderCall, names: seq<string>)
    requires |names| >= 2 && c.objectName != names[0]
    ensures Pairing([c], names, 0) == []
  {
    assert [c][1..] == [];
  }

  /** A request made through `RequestShaderCall` for the only registered
      object reaches its shader unchanged. */
  lemma RequestedUniformReachesSoleObject(name: string, variableName: string, value: UniformValue)
    requires !value.OtherValue?
    ensures Pairing([ShaderCall(name, variableName, TypeOf(value), value)], [name], 0)
      == [SetUniform(name, variableName, value)]
  {
  }

  // ---------------------------------------------------------------------
  // RenderObjects

  /** What the render pass reads from one object. */
  datatype ObjectView = ObjectView(name: string, advanced: bool, textures: map<string, Texture>,
                                   position: Vec3, vao: nat, indexCount: nat)

  function ViewOf(o: RenderableObject): ObjectView
    reads o
  {
    ObjectView(o.name, o.advanced, o.textures, o.transform.position, Handle(o.buffers, "VAO"), |o.indices|)
  }

  /** The views of `objs`, in order. */
  function Views(objs: seq<RenderableObject>): (r: seq<ObjectView>)
    reads objs
    ensures |r| == |objs|
  {
    seq(|objs|, i requires 0 <= i < |objs| reads objs => ViewOf(objs[i]))
  }

  /** The number of textures of type `t` in `ts`. */
  function CountType(ts: seq<Texture>, t: TextureType): (r: nat)
    ensures r <= |ts|
  {
    if ts == [] then 0
    else CountType(ts[..|ts| - 1], t) + if ts[|ts| - 1].properties.textureType == t then 1 else 0
  }

  /** The sampler uniform name of the `i`-th texture: its type's stem and
      how many textures of that type come up to and including it. */
  function SamplerName(ts: seq<Texture>, i: nat): string
    requires i < |ts|
  {
    var t := ts[i].properties.textureType;
    TextureType2String(t) + NatToString(CountType(ts[..i], t) + 1)
  }

  /** Binding one texture to unit `unit`. */
  function TextureBinding(owner: string, advanced: bool, ts: seq<Texture>, unit: nat): seq<GlCall>
    requires unit < |ts|
  {
    [ActiveTexture(GL_TEXTURE0 + unit)]
      + (if advanced then [SetUniform(owner, SamplerName(ts, unit), IntValue(unit))] else [])
      + [BindTexture(GL_TEXTURE_2D, ts[unit].textureID)]
  }

  /** Binding the first `n` textures, in order. */
  function BindingCalls(owner: string, advanced: bool, ts: seq<Texture>, n: nat): (r: seq<GlCall>)
    requires n <= |ts|
  {
    if n == 0 then [] else BindingCalls(owner, advanced, ts, n - 1) + TextureBinding(owner, advanced, ts, n - 1)
  }

  /** The texture-binding calls for an object. */
  function TextureBindings(v: ObjectView): seq<GlCall>
  {
    var ts := Values(v.textures);
    BindingCalls(v.name, v.advanced, ts, |ts|)
  }

  /** Drawing one object once its textures are bound and the queued
      uniform requests are applied: the camera and model matrices, the
      draw call and the error poll, which reports `error` when it is not
      `GL_NO_ERROR`. */
  function DrawTail(v: ObjectView, camera: Camera, drawLines: bool, error: int): seq<GlCall>
  {
    [SetUniform(v.name, "projection", Mat4Value(camera.projection)),
     SetUniform(v.name, "view", Mat4Value(camera.view)),
     SetUniform(v.name, "model", Mat4Value(Translation(v.position))),
     BindVertexArray(v.vao),
     DrawElements(if drawLines then GL_LINES else GL_TRIANGLES, v.indexCount),
     GetError]
      + (if error != GL_NO_ERROR then [LogError(NonFatal)] else [])
  }

  /** The draw of one object: shader selection, texture bindings, the
      queued uniform requests (`drain`) and the draw itself. */
  function DrawCalls(v: ObjectView, camera: Camera, drawLines: bool, drain: seq<GlCall>, error: int): seq<GlCall>
  {
    [UseShader(v.name)] + TextureBindings(v) + drain + DrawTail(v, camera, drawLines, error)
  }

  /** The whole render pass: the queued requests are drained while the
      first object is drawn; each object polls one error code. */
  function RenderPass(views: seq<ObjectView>, camera: Camera, drawLines: bool, drain: seq<GlCall>, errors: seq<int>): seq<GlCall>
    decreases |views|
  {
    if views == [] then []
    else
      DrawCalls(views[0], camera, drawLines, drain, NextError(errors))
      + RenderPass(views[1..], camera, drawLines, [], AfterGetError(errors))
  }

  /** The error codes still pending after `n` polls. */
  function Consumed(errors: seq<int>, n: nat): (r: seq<int>)
    ensures |r| == if n >= |errors| then 0 else |errors| - n
  {
    if n >= |errors| then [] else errors[n..]
  }

  lemma ConsumedStep(errors: seq<int>, n: nat)
    ensures AfterGetError(Consumed(errors, n)) == Consumed(errors, n + 1)
    ensures NextError(Consumed(errors, n)) == if n < |errors| then errors[n] else GL_NO_ERROR
  {
    if n + 1 < |errors| {
      assert errors[n..][1..] == errors[n + 1..];
    }
  }

  /** The draw calls in a trace: their mode and index count. */
  function Draws(trace: seq<GlCall>): seq<(nat, nat)>
  {
    if trace == [] then []
    else (if trace[0].DrawElements? then [(trace[0].mode, trace[0].count)] else []) + Draws(trace[1..])
  }

  lemma {:induction false} DrawsAppend(a: seq<GlCall>, b: seq<GlCall>)
    ensures Draws(a + b) == Draws(a) + Draws(b)
    decreases |a|
  {
    if a == [] {
      assert a + b == b;
    } else {
      assert (a + b)[0] == a[0];
      assert (a + b)[1..] == a[1..] + b;
      DrawsAppend(a[1..], b);
    }
  }

  /** A trace holding no draw call draws nothing. */
  lemma {:induction false} NoDraws(t: seq<GlCall>)
    requires forall i :: 0 <= i < |t| ==> !t[i].DrawElements?
    ensures Draws(t) == []
    decreases |t|
  {
    if t != [] {
      NoDraws(t[1..]);
    }
  }

  lemma {:induction false} BindingsDrawNothing(owner: string, advanced: bool, ts: seq<Texture>, n: nat)
    requires n <= |ts|
    ensures forall i :: 0 <= i < |BindingCalls(owner, advanced, ts, n)| ==> !BindingCalls(owner, advanced, ts, n)[i].DrawElements?
  {
    if n > 0 {
      BindingsDrawNothing(owner, advanced, ts, n - 1);
    }
  }

  /** Uniform requests never draw. */
  lemma {:induction false} PairingDrawsNothing(queue: seq<ShaderCall>, names: seq<string>, j: nat)
    ensures forall i :: 0 <= i < |Pairing(queue, names, j)| ==> !Pairing(queue, names, j)[i].DrawElements?
    decreases |queue|
  {
    if queue != [] && j < |names| {
      PairingDrawsNothing(queue[1..], names, NextSlot(j, |names|));
    }
  }

  lemma DrawTailDrawsOnce(v: ObjectView, camera: Camera, drawLines: bool, error: int)
    ensures Draws(DrawTail(v, camera, drawLines, error)) == [(if drawLines then GL_LINES else GL_TRIANGLES, v.indexCount)]
  {
    var matrices := [SetUniform(v.name, "projection", Mat4Value(camera.projection)),
         SetUniform(v.name, "view", Mat4Value(camera.view)),
         SetUniform(v.name, "model", Mat4Value(Translation(v.position))),
         BindVertexArray(v.vao)];
    var draw := [DrawElements(if drawLines then GL_LINES else GL_TRIANGLES, v.indexCount)];
    var report: seq<GlCall> := [GetError] + if error != GL_NO_ERROR then [LogError(NonFatal)] else [];
    NoDraws(matrices);
    NoDraws(report);
    DrawsAppend(matrices, draw);
    DrawsAppend(matrices + draw, report);
    assert DrawTail(v, camera, drawLines, error) == matrices + draw + report;
  }

  lemma DrawCallsDrawOnce(v: ObjectView, camera: Camera, drawLines: bool, drain: seq<GlCall>, error: int)
    requires Draws(drain) == []
    ensures Draws(DrawCalls(v, camera, drawLines, drain, error))
      == [(if drawLines then GL_LINES else GL_TRIANGLES, v.indexCount)]
  {
    var ts := Values(v.textures);
    var start := [UseShader(v.name)] + TextureBindings(v);
    BindingsDrawNothing(v.name, v.advanced, ts, |ts|);
    NoDraws(start);
    DrawTailDrawsOnce(v, camera, drawLines, error);
    DrawsAppend(start, drain);
    DrawsAppend(start + drain, DrawTail(v, camera, drawLines, error));
  }

  /** Every registered object is drawn exactly once per pass, in table
      order, with its own index count and the mode `drawLines` selects. */
  lemma {:induction false} RenderPassDrawsEachObjectOnce(views: seq<ObjectView>, camera: Camera, drawLines: bool,
                                                         drain: seq<GlCall>, errors: seq<int>)
    requires Draws(drain) == []
    ensures |Draws(RenderPass(views, camera, drawLines, drain, errors))| == |views|
    ensures forall i :: 0 <= i < |views| ==>
      Draws(RenderPass(views, camera, drawLines, drain, errors))[i] == (if drawLines then GL_LINES else GL_TRIANGLES, views[i].indexCount)
    decreases |views|
  {
    if views != [] {
      var head := DrawCalls(views[0], camera, drawLines, drain, NextError(errors));
      var tail := RenderPass(views[1..], camera, drawLines, [], AfterGetError(errors));
      DrawCallsDrawOnce(views[0], camera, drawLines, drain, NextError(errors));
      RenderPassDrawsEachObjectOnce(views[1..], camera, drawLines, [], AfterGetError(errors));
      DrawsAppend(head, tail);
      assert RenderPass(views, camera, drawLines, drain, errors) == head + tail;
      CountsCons(Draws(head + tail), Draws(tail), views, if drawLines then GL_LINES else GL_TRIANGLES);
    }
  }

  /** The per-object draw list of a pass, from the first object's and the rest's. */
  lemma CountsCons(r: seq<(nat, nat)>, rest: seq<(nat, nat)>, views: seq<ObjectView>, mode: nat)
    requires views != [] && r == [(mode, views[0].indexCount)] + rest
    requires |rest| == |views[1..]|
    requires forall i :: 0 <= i < |views[1..]| ==> rest[i] == (mode, views[1..][i].indexCount)
    ensures |r| == |views|
    ensures forall i :: 0 <= i < |views| ==> r[i] == (mode, views[i].indexCount)
  {
    forall i | 1 <= i < |views|
      ensures r[i] == (mode, views[i].indexCount)
    {
      assert r[i] == rest[i - 1];
      assert views[1..][i - 1] == views[i];
    }
  }

  lemma {:induction false} CountTypeMonotone(ts: seq<Texture>, i: nat, j: nat, t: TextureType)
    requires i <= j <= |ts|
    ensures CountType(ts[..i], t) <= CountType(ts[..j], t)
    decreases j - i
  {
    if i < j {
      CountTypeMonotone(ts, i, j - 1, t);
      assert ts[..j][..j - 1] == ts[..j - 1];
    }
  }

  lemma StemsDiffer(a: TextureType, b: TextureType, x: string, y: string)
    requires a != b
    ensures TextureType2String(a) + x != TextureType2String(b) + y
  {
    assert (TextureType2String(a) + x)[8] == TextureType2String(a)[8];
    assert (TextureType2String(b) + y)[8] == TextureType2String(b)[8];
  }

  /** In advanced mode no two textures of an object are bound to the same
      sampler name: textures of one type are numbered 1, 2, ... in order. */
  lemma SamplerNamesDistinct(ts: seq<Texture>, i: nat, j: nat)
    requires i < j < |ts|
    ensures SamplerName(ts, i) != SamplerName(ts, j)
  {
    var a := ts[i].properties.textureType;
    var b := ts[j].properties.textureType;
    if a == b {
      SameTypeSamplerNamesDiffer(ts, i, j);
    } else {
      StemsDiffer(a, b, NatToString(CountType(ts[..i], a) + 1), NatToString(CountType(ts[..j], b) + 1));
    }
  }

  lemma SameTypeSamplerNamesDiffer(ts: seq<Texture>, i: nat, j: nat)
    requires i < j < |ts| && ts[i].properties.textureType == ts[j].properties.textureType
    ensures SamplerName(ts, i) != SamplerName(ts, j)
  {
    var a := ts[i].properties.textureType;
    var m := CountType(ts[..i], a) + 1;
    var n := CountType(ts[..j], a) + 1;
    CountStep(ts, i, a);
    CountTypeMonotone(ts, i + 1, j, a);
    if NatToString(m) == NatToString(n) {
      NatToStringInjective(m, n);
    }
    SuffixesDiffer(TextureType2String(a), NatToString(m), NatToString(n));
  }

  /** Extending the prefix by the `i`-th texture counts it if it has type `t`. */
  lemma CountStep(ts: seq<Texture>, i: nat, t: TextureType)
    requires i < |ts|
    ensures CountType(ts[..i + 1], t) == CountType(ts[..i], t) + if ts[i].properties.textureType == t then 1 else 0
  {
    assert ts[..i + 1][..i] == ts[..i];
  }

  lemma SuffixesDiffer(stem: string, x: string, y: string)
    requires x != y
    ensures stem + x != stem + y
  {
    assert x == (stem + x)[|stem|..];
    assert y == (stem + y)[|stem|..];
  }

  // ---------------------------------------------------------------------
  // CleanUpObjects

  /** What `CleanUp` reads from one object. */
  datatype CleanUpTarget = CleanUpTarget(name: string, buffers: map<string, nat>)

  /** What `CleanUp` reads from each of `objs`. */
  function Targets(objs: seq<RenderableObject>): (r: seq<CleanUpTarget>)
    reads objs
    ensures |r| == |objs|
  {
    seq(|objs|, i requires 0 <= i < |objs| reads objs => CleanUpTarget(objs[i].name, objs[i].buffers))
  }

  /** The calls cleaning up `targets` in order. */
  function CleanUpAll(targets: seq<CleanUpTarget>): (r: seq<GlCall>)
    ensures |r| == 4 * |targets|
  {
    if targets == [] then []
    else
      CleanUpAll(targets[..|targets| - 1])
      + CleanUpCalls(targets[|targets| - 1].name, targets[|targets| - 1].buffers)
  }

  /** Cleaning up one more target appends its calls. */
  lemma CleanUpAllStep(targets: seq<CleanUpTarget>, i: nat)
    requires i < |targets|
    ensures CleanUpAll(targets[..i + 1]) == CleanUpAll(targets[..i]) + CleanUpCalls(targets[i].name, targets[i].buffers)
  {
    assert targets[..i + 1][..i] == targets[..i];
  }

  /** Every object's vertex array, both buffers and shader are released,
      in table order. */
  lemma {:induction false} CleanUpReleasesEach(targets: seq<CleanUpTarget>, i: nat)
    requires i < |targets|
    ensures CleanUpAll(targets)[4 * i..4 * i + 4] == CleanUpCalls(targets[i].name, targets[i].buffers)
    decreases |targets|
  {
    var n := |targets| - 1;
    var init := CleanUpAll(targets[..n]);
    if i < n {
      CleanUpReleasesEach(targets[..n], i);
      assert CleanUpAll(targets)[4 * i..4 * i + 4] == init[4 * i..4 * i + 4];
    } else {
      assert CleanUpAll(targets)[4 * i..4 * i + 4] == CleanUpAll(targets)[|init|..];
    }
  }

  // ---------------------------------------------------------------------
  // The registry

  class Registry {
    var renderableObjects: map<string, RenderableObject?>
    var shaderCalls: seq<ShaderCall>
    var drawLines: bool

    /** The registry files every object under its own name. */
    predicate Valid()
      reads this`renderableObjects, renderableObjects.Values`name
    {
      KeyedByName(renderableObjects)
    }

    /** The table stays keyed by name across a step that renames no filed
        object and leaves the table itself alone. */
    twostate lemma StaysValid()
      requires old(Valid()) && unchanged(this`renderableObjects)
      requires forall o | o in old(renderableObjects.Values) && o != null :: unchanged(o`name)
      ensures Valid()
    {
    }

    /** Valid, and no entry was left empty by a lookup of a missing name:
        the table can be iterated. */
    predicate Complete()
      reads this`renderableObjects, renderableObjects.Values`name
    {
      Valid() && NoNull(renderableObjects)
    }

    constructor ()
      ensures Valid()
      ensures renderableObjects == map[] && shaderCalls == [] && !drawLines
    {
      renderableObjects := map[];
      shaderCalls := [];
      drawLines := false;
    }

    /** `RegisterRenderableObject`: keyed by the object's name; an object
        whose name is taken is not registered. */
    method RegisterRenderableObject(o: RenderableObject)
      requires Valid()
      modifies this`renderableObjects
      ensures Valid()
      ensures renderableObjects == Insert(old(renderableObjects), o.name, o)
    {
      renderableObjects := Insert(renderableObjects, o.name, o);
    }

    /** `RequestShaderCall<T>`: queues the request, tagged with the value's
        type name. */
    method RequestShaderCall(objectName: string, variableName: string, value: UniformValue)
      modifies this`shaderCalls
      ensures shaderCalls == old(shaderCalls) + [ShaderCall(objectName, variableName, TypeOf(value), value)]
    {
      shaderCalls := shaderCalls + [ShaderCall(objectName, variableName, TypeOf(value), value)];
    }

    /** `GetRenderableObject`: a missing name is entered with no object. */
    method GetRenderableObject(name: string) returns (o: RenderableObject?)
      requires Valid()
      modifies this`renderableObjects
      ensures Valid()
      ensures renderableObjects == Subscript(old(renderableObjects), name, null)
      ensures o == if name in old(renderableObjects) then old(renderableObjects)[name] else null
    {
      renderableObjects := Subscript(renderableObjects, name, null);
      o := renderableObjects[name];
    }

    /** `PostShaderCalls`: drains the request queue against the table. */
    method PostShaderCalls(gl: Context)
      requires Complete()
      requires renderableObjects != map[] || shaderCalls == []
      modifies this`shaderCalls, gl
      ensures shaderCalls == []
      ensures gl.trace == old(gl.trace) + Pairing(old(shaderCalls), Keys(renderableObjects), 0)
      ensures gl.nextName == old(gl.nextName) && gl.errors == old(gl.errors)
    {
      var keys := Keys(renderableObjects);
      ghost var total := gl.trace + Pairing(shaderCalls, keys, 0);
      while shaderCalls != []
        invariant total == gl.trace + Pairing(shaderCalls, keys, 0)
        invariant gl.nextName == old(gl.nextName) && gl.errors == old(gl.errors)
        decreases |shaderCalls|
      {
        ghost var pending := |shaderCalls|;
        var j := 0;
        ghost var slot := 0;
        while j < |keys| && shaderCalls != []
          invariant 0 <= j <= |keys| && |shaderCalls| + j == pending
          invariant slot == if j == |keys| then 0 else j
          invariant total == gl.trace + Pairing(shaderCalls, keys, slot)
          invariant gl.nextName == old(gl.nextName) && gl.errors == old(gl.errors)
        {
          var o := renderableObjects[keys[j]];
          ghost var t0 := gl.trace;
          ghost var rest := Pairing(shaderCalls[1..], keys, NextSlot(j, |keys|));
          ghost var emitted := UniformCalls(shaderCalls[0], keys[j]);
          PostFront(gl, o.name);
          ConcatAssociative(t0, emitted, rest);
          slot := NextSlot(j, |keys|);
          j := j + 1;
        }
      }
    }

    /** One iteration of the inner loop of `PostShaderCalls`: the front
        request is compared against the object named `owner` and popped. */
    method PostFront(gl: Context, owner: string)
      requires shaderCalls != []
      modifies this`shaderCalls, gl
      ensures shaderCalls == old(shaderCalls)[1..]
      ensures gl.trace == old(gl.trace) + UniformCalls(old(shaderCalls)[0], owner)
      ensures gl.nextName == old(gl.nextName) && gl.errors == old(gl.errors)
    {
      var call := shaderCalls[0];
      if owner == call.objectName {
        if Recognised(call.typeId) {
          gl.Call(SetUniform(owner, call.variableName, call.value));
        } else {
          gl.Call(LogError(NonFatal));
        }
      }
      shaderCalls := shaderCalls[1..];
    }

    /** The texture loop of `RenderObjects` for one object, over its
        textures in table order: each texture is bound to the next texture
        unit and, for an advanced object, its sampler uniform is pointed at
        that unit. */
    method BindTextureValues(gl: Context, owner: string, advanced: bool, ts: seq<Texture>)
      modifies gl
      ensures gl.trace == old(gl.trace) + BindingCalls(owner, advanced, ts, |ts|)
      ensures gl.nextName == old(gl.nextName) && gl.errors == old(gl.errors)
    {
      var count := 0;
      var diffuseNr, specularNr, normalNr := 1, 1, 1;
      while count < |ts|
        invariant 0 <= count <= |ts|
        invariant gl.trace == old(gl.trace) + BindingCalls(owner, advanced, ts, count)
        invariant advanced ==> diffuseNr == CountType(ts[..count], Diffuse) + 1
        invariant advanced ==> specularNr == CountType(ts[..count], Specular) + 1
        invariant advanced ==> normalNr == CountType(ts[..count], Normal) + 1
        invariant gl.nextName == old(gl.nextName) && gl.errors == old(gl.errors)
      {
        assert ts[..count + 1][..count] == ts[..count];
        ghost var before := BindingCalls(owner, advanced, ts, count);
        diffuseNr, specularNr, normalNr := BindTextureAt(gl, owner, advanced, ts, count, diffuseNr, specularNr, normalNr);
        ConcatAssociative(old(gl.trace), before, TextureBinding(owner, advanced, ts, count));
        count := count + 1;
      }
    }

    /** One iteration of the texture loop: binds `ts[count]` to unit
        `count` and advances its type's counter. */
    method BindTextureAt(gl: Context, owner: string, advanced: bool, ts: seq<Texture>, count: nat,
                         diffuseNr: nat, specularNr: nat, normalNr: nat) returns (d: nat, sp: nat, n: nat)
      requires count < |ts|
      requires advanced ==> diffuseNr == CountType(ts[..count], Diffuse) + 1
      requires advanced ==> specularNr == CountType(ts[..count], Specular) + 1
      requires advanced ==> normalNr == CountType(ts[..count], Normal) + 1
      modifies gl
      ensures gl.trace == old(gl.trace) + TextureBinding(owner, advanced, ts, count)
      ensures advanced ==> d == CountType(ts[..count + 1], Diffuse) + 1
      ensures advanced ==> sp == CountType(ts[..count + 1], Specular) + 1
      ensures advanced ==> n == CountType(ts[..count + 1], Normal) + 1
      ensures gl.nextName == old(gl.nextName) && gl.errors == old(gl.errors)
    {
      var t := ts[count];
      d, sp, n := diffuseNr, specularNr, normalNr;
      CountStep(ts, count, Diffuse);
      CountStep(ts, count, Specular);
      CountStep(ts, count, Normal);
      ghost var t0 := gl.trace;
      ghost var sampler := if advanced then [SetUniform(owner, SamplerName(ts, count), IntValue(count))] else [];
      gl.Call(ActiveTexture(GL_TEXTURE0 + count));
      if advanced {
        var number: nat;
        var kind := t.properties.textureType;
        if kind == Diffuse {
          number := d;
          d := d + 1;
        } else if kind == Specular {
          number := sp;
          sp := sp + 1;
        } else {
          number := n;
          n := n + 1;
        }
        assert number == CountType(ts[..count], kind) + 1;
        gl.Call(SetUniform(owner, TextureType2String(kind) + NatToString(number), IntValue(count)));
      }
      assert gl.trace == t0 + [ActiveTexture(GL_TEXTURE0 + count)] + sampler;
      gl.Call(BindTexture(GL_TEXTURE_2D, t.textureID));
      ConcatAssociative(t0, [ActiveTexture(GL_TEXTURE0 + count)], sampler);
      ConcatAssociative(t0, [ActiveTexture(GL_TEXTURE0 + count)] + sampler, [BindTexture(GL_TEXTURE_2D, t.textureID)]);
    }

    /** The end of `RenderObjects` for one object: matrices, draw call and
        error poll. */
    method Draw(gl: Context, v: ObjectView, camera: Camera)
      modifies gl
      ensures gl.trace == old(gl.trace) + DrawTail(v, camera, drawLines, NextError(old(gl.errors)))
      ensures gl.errors == AfterGetError(old(gl.errors)) && gl.nextName == old(gl.nextName)
    {
      gl.Calls([SetUniform(v.name, "projection", Mat4Value(camera.projection)),
                SetUniform(v.name, "view", Mat4Value(camera.view)),
                SetUniform(v.name, "model", Mat4Value(Translation(v.position))),
                BindVertexArray(v.vao),
                DrawElements(if drawLines then GL_LINES else GL_TRIANGLES, v.indexCount)]);
      var error := gl.GetErrorCode();
      if error != GL_NO_ERROR {
        gl.Call(LogError(NonFatal));
      }
    }

    /** One iteration of `RenderObjects`, for the object whose fields read
        `v`. */
    method DrawObject(gl: Context, v: ObjectView, camera: Camera)
      requires Complete() && renderableObjects != map[]
      modifies this`shaderCalls, gl
      ensures shaderCalls == []
      ensures gl.trace == old(gl.trace)
        + DrawCalls(v, camera, drawLines, Pairing(old(shaderCalls), Keys(renderableObjects), 0), NextError(old(gl.errors)))
      ensures gl.errors == AfterGetError(old(gl.errors)) && gl.nextName == old(gl.nextName)
    {
      ghost var t0 := gl.trace;
      ghost var drain := Pairing(shaderCalls, Keys(renderableObjects), 0);
      ghost var e := NextError(gl.errors);
      ghost var bindings := TextureBindings(v);
      ghost var tail := DrawTail(v, camera, drawLines, e);
      gl.Call(UseShader(v.name));
      BindTextureValues(gl, v.name, v.advanced, Values(v.textures));
      PostShaderCalls(gl);
      Draw(gl, v, camera);
      assert gl.trace == t0 + [UseShader(v.name)] + bindings + drain + tail;
      ConcatAssociative4(t0, [UseShader(v.name)], bindings, drain, tail);
    }

    /** `RenderObjects`: draws every registered object, in table order. */
    method RenderObjects(gl: Context, camera: Camera)
      requires Complete()
      modifies this`shaderCalls, gl
      ensures shaderCalls == if renderableObjects == map[] then old(shaderCalls) else []
      ensures gl.trace == old(gl.trace
        + RenderPass(Views(InOrder(renderableObjects)), camera, drawLines, Pairing(shaderCalls, Keys(renderableObjects), 0), gl.errors))
      ensures gl.errors == old(Consumed(gl.errors, |renderableObjects|)) && gl.nextName == old(gl.nextName)
    {
      var views := Views(InOrder(renderableObjects));
      DrawAll(gl, camera, views);
    }

    /** The loop of `RenderObjects`, over the views of the objects in table
        order: each is drawn in turn, and the queued requests are drained
        with the first one. */
    method DrawAll(gl: Context, camera: Camera, views: seq<ObjectView>)
      requires Complete() && |views| == |renderableObjects|
      modifies this`shaderCalls, gl
      ensures shaderCalls == if views == [] then old(shaderCalls) else []
      ensures gl.trace == old(gl.trace + RenderPass(views, camera, drawLines, Pairing(shaderCalls, Keys(renderableObjects), 0), gl.errors))
      ensures gl.errors == old(Consumed(gl.errors, |views|)) && gl.nextName == old(gl.nextName)
    {
      ghost var calls0, errors0 := shaderCalls, gl.errors;
      ghost var total := gl.trace + RenderPass(views, camera, drawLines, Pairing(shaderCalls, Keys(renderableObjects), 0), errors0);
      assert errors0[0..] == errors0;
      var i := 0;
      while i < |views|
        invariant i <= |views| && Complete()
        invariant total == gl.trace + RenderPass(views[i..], camera, drawLines, Pairing(shaderCalls, Keys(renderableObjects), 0), gl.errors)
        invariant gl.errors == Consumed(errors0, i) && gl.nextName == old(gl.nextName)
        invariant shaderCalls == if i == 0 then calls0 else []
      {
        i := RenderStep(gl, camera, views, i, total, errors0);
      }
    }

    /** One iteration of `RenderObjects`: the first of `rest` is drawn, and
        the queued requests are drained with it; `total` is the trace the
        whole pass ends with, and `errors0` the error codes pending before
        the pass. Returns the next index. */
    method RenderStep(gl: Context, camera: Camera, views: seq<ObjectView>, i: nat, ghost total: seq<GlCall>,
                      ghost errors0: seq<int>) returns (next: nat)
      requires Complete() && renderableObjects != map[] && i < |views|
      requires total == gl.trace + RenderPass(views[i..], camera, drawLines, Pairing(shaderCalls, Keys(renderableObjects), 0), gl.errors)
      requires gl.errors == Consumed(errors0, i)
      modifies this`shaderCalls, gl
      ensures next == i + 1 && shaderCalls == [] && Complete()
      ensures total == gl.trace + RenderPass(views[next..], camera, drawLines, Pairing(shaderCalls, Keys(renderableObjects), 0), gl.errors)
      ensures gl.errors == AfterGetError(old(gl.errors)) == Consumed(errors0, next) && gl.nextName == old(gl.nextName)
    {
      ConsumedStep(errors0, i);
      ghost var t0 := gl.trace;
      ghost var e0 := gl.errors;
      ghost var drain := Pairing(shaderCalls, Keys(renderableObjects), 0);
      assert views[i..][1..] == views[i + 1..];
      DrawObject(gl, views[i], camera);
      ConcatAssociative(t0, DrawCalls(views[i], camera, drawLines, drain, NextError(e0)),
                        RenderPass(views[i + 1..], camera, drawLines, [], gl.errors));
      next := i + 1;
    }

    /** The loop of `CleanUpObjects`: each of `objs` is cleaned up in turn. */
    method CleanUpEach(gl: Context, objs: seq<RenderableObject>)
      requires forall a, b :: 0 <= a < b < |objs| ==> objs[a] != objs[b]
      modifies gl, objs`vertices, objs`indices, objs`buffers
      ensures gl.trace == old(gl.trace) + CleanUpAll(old(Targets(objs)))
      ensures forall o :: o in objs ==> o.vertices == [] && o.indices == [] && o.buffers == map[]
      ensures gl.nextName == old(gl.nextName) && gl.errors == old(gl.errors)
    {
      ghost var targets := Targets(objs);
      var i := 0;
      while i < |objs|
        invariant 0 <= i <= |objs|
        invariant gl.trace == old(gl.trace) + CleanUpAll(targets[..i])
        invariant forall k :: i <= k < |objs| ==> targets[k] == CleanUpTarget(objs[k].name, objs[k].buffers)
        invariant forall k :: 0 <= k < i ==> objs[k].vertices == [] && objs[k].indices == [] && objs[k].buffers == map[]
        invariant gl.nextName == old(gl.nextName) && gl.errors == old(gl.errors)
      {
        i := CleanUpNext(gl, objs, targets, i, old(gl.trace));
      }
      assert targets[..|objs|] == targets;
    }

    /** One turn of `CleanUpEach`: the object `objs[i]` is cleaned up,
        extending the trace by its calls, and the others are left alone. */
    static method CleanUpNext(gl: Context, objs: seq<RenderableObject>, ghost targets: seq<CleanUpTarget>, i: nat,
                              ghost start: seq<GlCall>)
      returns (next: nat)
      requires forall a, b :: 0 <= a < b < |objs| ==> objs[a] != objs[b]
      requires i < |objs| == |targets|
      requires gl.trace == start + CleanUpAll(targets[..i])
      requires forall k :: i <= k < |objs| ==> targets[k] == CleanUpTarget(objs[k].name, objs[k].buffers)
      requires forall k :: 0 <= k < i ==> objs[k].vertices == [] && objs[k].indices == [] && objs[k].buffers == map[]
      modifies gl, {objs[i]}`vertices, {objs[i]}`indices, {objs[i]}`buffers
      ensures next == i + 1 && gl.trace == start + CleanUpAll(targets[..next])
      ensures forall k :: next <= k < |objs| ==> targets[k] == CleanUpTarget(objs[k].name, objs[k].buffers)
      ensures forall k :: 0 <= k < next ==> objs[k].vertices == [] && objs[k].indices == [] && objs[k].buffers == map[]
      ensures gl.nextName == old(gl.nextName) && gl.errors == old(gl.errors)
    {
      next := i + 1;
      CleanUpAllStep(targets, i);
      objs[i].CleanUp(gl);
    }

    /** `CleanUpObjects`: every registered object releases its GL objects
        and shader, the table is emptied and the renderer's clean-up event
        is dispatched. */
    method CleanUpObjects(gl: Context)
      requires Complete()
      modifies this`renderableObjects, gl
      modifies InOrder(renderableObjects)`vertices, InOrder(renderableObjects)`indices, InOrder(renderableObjects)`buffers
      ensures Valid() && renderableObjects == map[]
      ensures gl.trace == old(gl.trace + CleanUpAll(Targets(InOrder(renderableObjects)))) + [RendererCleanupEvent]
      ensures forall o :: o in old(InOrder(renderableObjects)) ==> o.vertices == [] && o.indices == [] && o.buffers == map[]
      ensures gl.nextName == old(gl.nextName) && gl.errors == old(gl.errors)
    {
      InOrderDistinct(renderableObjects);
      CleanUpEach(gl, InOrder(renderableObjects));
      renderableObjects := map[];
      gl.Call(RendererCleanupEvent);
    }
  }
}
