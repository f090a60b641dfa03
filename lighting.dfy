/** The lighting manager: one directional light and two name-keyed tables of
    point and spot lights, and the pass that hands all of them to every
    registered object's shader as uniforms. Lights are values; the tables
    are the manager's state. */
module Lighting {
  import opened Wrappers
  import opened Strings
  import opened StdMap
  import opened Glm
  import opened Gl
  import opened Renderer

  datatype DirectionalLight = DirectionalLight(direction: Vec3, ambient: Vec3, diffuse: Vec3, specular: Vec3)

  datatype PointLight = PointLight(position: Vec3, constant: real, linear: real, quadratic: real,
                                   ambient: Vec3, diffuse: Vec3, specular: Vec3)

  datatype SpotLight = SpotLight(position: Vec3, direction: Vec3, constant: real, linear: real, quadratic: real,
                                 cutOff: real, outerCutOff: real, ambient: Vec3, diffuse: Vec3, specular: Vec3)

  /** A default-initialised `DirectionalLight`. */
  const DefaultDirectionalLight := DirectionalLight(Zero3, Vec3(0.05, 0.05, 0.05), Vec3(0.4, 0.4, 0.4), Vec3(0.5, 0.5, 0.5))

  /** `PointLight::Register`: its parameters come in a different order from
      the fields, and each lands in the field of its own name. */
  function RegisterPointLight(position: Vec3, ambient: Vec3, diffuse: Vec3, specular: Vec3,
                              constant: real, linear: real, quadratic: real): (r: PointLight)
    ensures r.position == position && r.ambient == ambient && r.diffuse == diffuse && r.specular == specular
    ensures r.constant == constant && r.linear == linear && r.quadratic == quadratic
  {
    PointLight(position, constant, linear, quadratic, ambient, diffuse, specular)
  }

  /** `SpotLight::Register`, with the same reordering: each parameter
      lands in the field of its own name. */
  function RegisterSpotLight(position: Vec3, direction: Vec3, ambient: Vec3, diffuse: Vec3, specular: Vec3,
                             constant: real, linear: real, quadratic: real, cutOff: real, outerCutOff: real): (r: SpotLight)
    ensures r.position == position && r.direction == direction
    ensures r.ambient == ambient && r.diffuse == diffuse && r.specular == specular
    ensures r.constant == constant && r.linear == linear && r.quadratic == quadratic
    ensures r.cutOff == cutOff && r.outerCutOff == outerCutOff
  {
    SpotLight(position, direction, constant, linear, quadratic, cutOff, outerCutOff, ambient, diffuse, specular)
  }

  /** The size the error message names as the most a light table may hold. */
  const MaxLights: nat := 10

  /** The guard both add functions apply; note that it reads the point-light
      table only. */
  predicate Overflows(pointLights: map<string, PointLight>)
  {
    |pointLights| >= MaxLights
  }

  // ---------------------------------------------------------------------
  // The uniforms of one object

  /** Setting `names[j]` to `values[j]` on `owner`'s shader, for each `j`. */
  function UniformList(owner: string, names: seq<string>, values: seq<UniformValue>): (r: seq<GlCall>)
    requires |names| == |values|
    ensures |r| == |names|
    ensures forall j :: 0 <= j < |names| ==> r[j] == SetUniform(owner, names[j], values[j])
  {
    seq(|names|, j requires 0 <= j < |names| => SetUniform(owner, names[j], values[j]))
  }

  /** The name of field `field` of slot `slot` of the shader array `arrayName`. */
  function SlotName(arrayName: string, slot: nat, field: string): string
  {
    arrayName + "[" + NatToString(slot) + "]." + field
  }

  function SlotNames(arrayName: string, slot: nat, fields: seq<string>): (r: seq<string>)
    ensures |r| == |fields|
  {
    seq(|fields|, j requires 0 <= j < |fields| => SlotName(arrayName, slot, fields[j]))
  }

  const DirectionalFields: seq<string> := ["dirLight.direction", "dirLight.ambient", "dirLight.diffuse", "dirLight.specular"]

  function DirectionalValues(d: DirectionalLight): seq<UniformValue>
  {
    [Vec3Value(d.direction), Vec3Value(d.ambient), Vec3Value(d.diffuse), Vec3Value(d.specular)]
  }

  const PointFields: seq<string> := ["position", "ambient", "diffuse", "specular", "constant", "linear", "quadratic", "isActive"]

  function PointValues(l: PointLight): seq<UniformValue>
  {
    [Vec3Value(l.position), Vec3Value(l.ambient), Vec3Value(l.diffuse), Vec3Value(l.specular),
     FloatValue(l.constant), FloatValue(l.linear), FloatValue(l.quadratic), BoolValue(true)]
  }

  /** The spot-light fields, with the outer cut-off spelled as the shader
      receives it. */
  const SpotFields: seq<string> := ["position", "ambient", "diffuse", "specular", "constant", "linear", "quadratic",
                                    "cutOff", "outurCutOff", "isActive"]

  function SpotValues(l: SpotLight): seq<UniformValue>
  {
    [Vec3Value(l.position), Vec3Value(l.ambient), Vec3Value(l.diffuse), Vec3Value(l.specular),
     FloatValue(l.constant), FloatValue(l.linear), FloatValue(l.quadratic),
     FloatValue(l.cutOff), FloatValue(l.outerCutOff), BoolValue(true)]
  }

  /** The uniforms of point light slot `slot`. */
  function PointLightCalls(owner: string, slot: nat, l: PointLight): seq<GlCall>
  {
    UniformList(owner, SlotNames("pointLights", slot, PointFields), PointValues(l))
  }

  /** The uniforms of spot light slot `slot`. */
  function SpotLightCalls(owner: string, slot: nat, l: SpotLight): seq<GlCall>
  {
    UniformList(owner, SlotNames("spotLights", slot, SpotFields), SpotValues(l))
  }

  /** The point lights `ls`, in slots 0, 1, ... */
  function PointLightsCalls(owner: string, ls: seq<PointLight>): (r: seq<GlCall>)
    ensures |r| == 8 * |ls|
    decreases |ls|
  {
    if ls == [] then []
    else PointLightsCalls(owner, ls[..|ls| - 1]) + PointLightCalls(owner, |ls| - 1, ls[|ls| - 1])
  }

  function SpotLightsCalls(owner: string, ls: seq<SpotLight>): (r: seq<GlCall>)
    ensures |r| == 10 * |ls|
    decreases |ls|
  {
    if ls == [] then []
    else SpotLightsCalls(owner, ls[..|ls| - 1]) + SpotLightCalls(owner, |ls| - 1, ls[|ls| - 1])
  }

  /** One more point light, in the next slot. */
  lemma PointLightsStep(owner: string, ls: seq<PointLight>, k: nat)
    requires k < |ls|
    ensures PointLightsCalls(owner, ls[..k + 1]) == PointLightsCalls(owner, ls[..k]) + PointLightCalls(owner, k, ls[k])
  {
    assert ls[..k + 1][..k] == ls[..k];
  }

  /** One more spot light, in the next slot. */
  lemma SpotLightsStep(owner: string, ls: seq<SpotLight>, k: nat)
    requires k < |ls|
    ensures SpotLightsCalls(owner, ls[..k + 1]) == SpotLightsCalls(owner, ls[..k]) + SpotLightCalls(owner, k, ls[k])
  {
    assert ls[..k + 1][..k] == ls[..k];
  }

  /** The fixed material every object is given. */
  function MaterialCalls(owner: string): seq<GlCall>
  {
    [SetUniform(owner, "material.specular", Vec3Value(Vec3(1.0, 1.0, 1.0))),
     SetUniform(owner, "material.diffuse", Vec3Value(Vec3(1.0, 1.0, 1.0))),
     SetUniform(owner, "material.shininess", FloatValue(32.0))]
  }

  /** The head of one object's uniforms: the eye position and the
      directional light. */
  function HeadCalls(owner: string, viewPos: Vec3, d: DirectionalLight): seq<GlCall>
  {
    [SetUniform(owner, "viewPos", Vec3Value(viewPos))] + UniformList(owner, DirectionalFields, DirectionalValues(d))
  }

  /** Everything one object's shader receives, in order. */
  function ObjectLightingCalls(owner: string, viewPos: Vec3, d: DirectionalLight,
                               pointLights: map<string, PointLight>, spotLights: map<string, SpotLight>): seq<GlCall>
  {
    HeadCalls(owner, viewPos, d) + PointLightsCalls(owner, Values(pointLights))
      + SpotLightsCalls(owner, Values(spotLights)) + MaterialCalls(owner)
  }

  /** The whole pass: every object named in `owners`, in that order. */
  function LightingPass(owners: seq<string>, viewPos: Vec3, d: DirectionalLight,
                        pointLights: map<string, PointLight>, spotLights: map<string, SpotLight>): seq<GlCall>
    decreases |owners|
  {
    if owners == [] then []
    else
      LightingPass(owners[..|owners| - 1], viewPos, d, pointLights, spotLights)
      + ObjectLightingCalls(owners[|owners| - 1], viewPos, d, pointLights, spotLights)
  }

  // ---------------------------------------------------------------------
  // What the pass emits

  /** Slot `k` of the point-light section holds the `k`-th light: eight
      uniforms, all naming slot `k`, the last switching it on. */
  lemma {:induction false} PointLightsCallsBlocks(owner: string, ls: seq<PointLight>)
    ensures forall k :: 0 <= k < |ls| ==>
      PointLightsCalls(owner, ls)[8 * k..8 * k + 8] == PointLightCalls(owner, k, ls[k])
  {
    forall k | 0 <= k < |ls|
      ensures PointLightsCalls(owner, ls)[8 * k..8 * k + 8] == PointLightCalls(owner, k, ls[k])
    {
      PointLightBlock(owner, ls, k);
    }
  }

  lemma {:induction false} PointLightBlock(owner: string, ls: seq<PointLight>, k: nat)
    requires k < |ls|
    ensures PointLightsCalls(owner, ls)[8 * k..8 * k + 8] == PointLightCalls(owner, k, ls[k])
    decreases |ls|
  {
    var n := |ls| - 1;
    var front := PointLightsCalls(owner, ls[..n]);
    var last := PointLightCalls(owner, n, ls[n]);
    assert PointLightsCalls(owner, ls) == front + last;
    if k < n {
      PointLightBlock(owner, ls[..n], k);
      SliceInFront(front, last, 8 * k, 8 * k + 8);
      assert ls[..n][k] == ls[k];
    } else {
      assert k == n;
      SliceInBack(front, last, 8 * k, 8 * k + 8);
    }
  }

  /** Slot `k` of the spot-light section holds the `k`-th light: ten
      uniforms, all naming slot `k`, the last switching it on. */
  lemma {:induction false} SpotLightsCallsBlocks(owner: string, ls: seq<SpotLight>)
    ensures forall k :: 0 <= k < |ls| ==>
      SpotLightsCalls(owner, ls)[10 * k..10 * k + 10] == SpotLightCalls(owner, k, ls[k])
  {
    forall k | 0 <= k < |ls|
      ensures SpotLightsCalls(owner, ls)[10 * k..10 * k + 10] == SpotLightCalls(owner, k, ls[k])
    {
      SpotLightBlock(owner, ls, k);
    }
  }

  lemma {:induction false} SpotLightBlock(owner: string, ls: seq<SpotLight>, k: nat)
    requires k < |ls|
    ensures SpotLightsCalls(owner, ls)[10 * k..10 * k + 10] == SpotLightCalls(owner, k, ls[k])
    decreases |ls|
  {
    var n := |ls| - 1;
    var front := SpotLightsCalls(owner, ls[..n]);
    var last := SpotLightCalls(owner, n, ls[n]);
    assert SpotLightsCalls(owner, ls) == front + last;
    if k < n {
      SpotLightBlock(owner, ls[..n], k);
      SliceInFront(front, last, 10 * k, 10 * k + 10);
      assert ls[..n][k] == ls[k];
    } else {
      assert k == n;
      SliceInBack(front, last, 10 * k, 10 * k + 10);
    }
  }

  /** Slots follow the tables' name order: slot `k` is the light filed under
      the `k`-th smallest name. */
  lemma PointSlotsInKeyOrder(owner: string, pointLights: map<string, PointLight>, k: nat)
    requires k < |pointLights|
    ensures PointLightsCalls(owner, Values(pointLights))[8 * k..8 * k + 8]
         == PointLightCalls(owner, k, pointLights[Keys(pointLights)[k]])
  {
    PointLightsCallsBlocks(owner, Values(pointLights));
  }

  lemma SpotSlotsInKeyOrder(owner: string, spotLights: map<string, SpotLight>, k: nat)
    requires k < |spotLights|
    ensures SpotLightsCalls(owner, Values(spotLights))[10 * k..10 * k + 10]
         == SpotLightCalls(owner, k, spotLights[Keys(spotLights)[k]])
  {
    SpotLightsCallsBlocks(owner, Values(spotLights));
  }

  /** One object receives the eye position and four directional-light
      uniforms, eight per point light and ten per spot light, then three
      material constants; an empty table contributes nothing. */
  lemma ObjectLightingLayout(owner: string, viewPos: Vec3, d: DirectionalLight,
                             pointLights: map<string, PointLight>, spotLights: map<string, SpotLight>)
    ensures var r := ObjectLightingCalls(owner, viewPos, d, pointLights, spotLights);
      |r| == 8 + 8 * |pointLights| + 10 * |spotLights|
      && r[0] == SetUniform(owner, "viewPos", Vec3Value(viewPos))
      && r[|r| - 3..] == MaterialCalls(owner)
    ensures pointLights == map[] && spotLights == map[] ==>
      ObjectLightingCalls(owner, viewPos, d, pointLights, spotLights) == HeadCalls(owner, viewPos, d) + MaterialCalls(owner)
  {
    PointLightsCallsBlocks(owner, Values(pointLights));
    SpotLightsCallsBlocks(owner, Values(spotLights));
    var r := ObjectLightingCalls(owner, viewPos, d, pointLights, spotLights);
    var body := HeadCalls(owner, viewPos, d) + PointLightsCalls(owner, Values(pointLights)) + SpotLightsCalls(owner, Values(spotLights));
    assert r == body + MaterialCalls(owner);
    assert r[|r| - 3..] == MaterialCalls(owner);
    if pointLights == map[] && spotLights == map[] {
      assert Values(pointLights) == [] && Values(spotLights) == [];
    }
  }

  /** The pass over a table is the passes over its parts, one after the
      other: each object gets its own copy of the uniforms. */
  lemma {:induction false} LightingPassAppend(a: seq<string>, b: seq<string>, viewPos: Vec3, d: DirectionalLight,
                                              pointLights: map<string, PointLight>, spotLights: map<string, SpotLight>)
    ensures LightingPass(a + b, viewPos, d, pointLights, spotLights)
         == LightingPass(a, viewPos, d, pointLights, spotLights) + LightingPass(b, viewPos, d, pointLights, spotLights)
    decreases |b|
  {
    if b == [] {
      assert a + b == a;
    } else {
      var n := |b| - 1;
      assert (a + b)[..|a + b| - 1] == a + b[..n];
      assert (a + b)[|a + b| - 1] == b[n];
      LightingPassAppend(a, b[..n], viewPos, d, pointLights, spotLights);
      ConcatAssociative(LightingPass(a, viewPos, d, pointLights, spotLights),
                        LightingPass(b[..n], viewPos, d, pointLights, spotLights),
                        ObjectLightingCalls(b[n], viewPos, d, pointLights, spotLights));
    }
  }

  /** A table of one object gives exactly that object's uniforms. */
  lemma LightingPassSingle(owner: string, viewPos: Vec3, d: DirectionalLight,
                           pointLights: map<string, PointLight>, spotLights: map<string, SpotLight>)
    ensures LightingPass([owner], viewPos, d, pointLights, spotLights)
         == ObjectLightingCalls(owner, viewPos, d, pointLights, spotLights)
  {
    assert [owner][..0] == [];
  }

  /** One step of the object loop: the pass over `keys[..i + 1]` is the
      pass over `keys[..i]` followed by the `i`-th object. */
  lemma LightingPassStep(keys: seq<string>, i: nat, viewPos: Vec3, d: DirectionalLight,
                         pointLights: map<string, PointLight>, spotLights: map<string, SpotLight>)
    requires i < |keys|
    ensures LightingPass(keys[..i + 1], viewPos, d, pointLights, spotLights)
         == LightingPass(keys[..i], viewPos, d, pointLights, spotLights)
          + ObjectLightingCalls(keys[i], viewPos, d, pointLights, spotLights)
  {
    assert keys[..i + 1][..i] == keys[..i];
  }

  // ---------------------------------------------------------------------
  // Distinct slots

  /** Two numbers followed by a field separator read the same only when the
      numbers and the fields agree. */
  lemma NumberedFieldsDiffer(a: nat, fa: string, b: nat, fb: string)
    requires a != b || fa != fb
    ensures NatToString(a) + "]." + fa != NatToString(b) + "]." + fb
  {
    var x := NatToString(a);
    var y := NatToString(b);
    var s := x + "]." + fa;
    var t := y + "]." + fb;
    if s == t {
      BracketAfterDigits(x, fa);
      BracketAfterDigits(y, fb);
      assert |x| == |y|;
      assert x == s[..|x|] && y == t[..|y|];
      assert fa == s[|x| + 2..] && fb == t[|y| + 2..];
      NatToStringInjective(a, b);
    }
  }

  /** In a slot name the first `]` is the one after the number. */
  lemma BracketAfterDigits(x: string, f: string)
    requires forall i :: 0 <= i < |x| ==> '0' <= x[i] <= '9'
    ensures (x + "]." + f)[|x|] == ']'
    ensures forall i :: 0 <= i < |x| ==> (x + "]." + f)[i] != ']'
  {
  }

  /** Within one array, different slots or different fields name different
      uniforms. */
  lemma SlotNamesDiffer(arrayName: string, a: nat, fa: string, b: nat, fb: string)
    requires a != b || fa != fb
    ensures SlotName(arrayName, a, fa) != SlotName(arrayName, b, fb)
  {
    NumberedFieldsDiffer(a, fa, b, fb);
    assert SlotName(arrayName, a, fa) == arrayName + "[" + (NatToString(a) + "]." + fa);
    assert SlotName(arrayName, b, fb) == arrayName + "[" + (NatToString(b) + "]." + fb);
    SuffixesDiffer(arrayName + "[", NatToString(a) + "]." + fa, NatToString(b) + "]." + fb);
  }

  /** No two point-light uniforms of an object, in the same slot or in two
      slots, set the same name. */
  lemma PointUniformsDistinct(owner: string, a: nat, la: PointLight, i: nat, b: nat, lb: PointLight, j: nat)
    requires i < |PointFields| && j < |PointFields| && (a, i) != (b, j)
    ensures PointLightCalls(owner, a, la)[i].uniform != PointLightCalls(owner, b, lb)[j].uniform
  {
    assert PointLightCalls(owner, a, la)[i].uniform == SlotName("pointLights", a, PointFields[i]);
    assert PointLightCalls(owner, b, lb)[j].uniform == SlotName("pointLights", b, PointFields[j]);
    if a == b {
      assert PointFields[i] != PointFields[j];
    }
    SlotNamesDiffer("pointLights", a, PointFields[i], b, PointFields[j]);
  }

  /** The same for spot lights. */
  lemma SpotUniformsDistinct(owner: string, a: nat, la: SpotLight, i: nat, b: nat, lb: SpotLight, j: nat)
    requires i < |SpotFields| && j < |SpotFields| && (a, i) != (b, j)
    ensures SpotLightCalls(owner, a, la)[i].uniform != SpotLightCalls(owner, b, lb)[j].uniform
  {
    assert SpotLightCalls(owner, a, la)[i].uniform == SlotName("spotLights", a, SpotFields[i]);
    assert SpotLightCalls(owner, b, lb)[j].uniform == SlotName("spotLights", b, SpotFields[j]);
    if a == b {
      assert SpotFields[i] != SpotFields[j];
    }
    SlotNamesDiffer("spotLights", a, SpotFields[i], b, SpotFields[j]);
  }

  // ---------------------------------------------------------------------
  // The manager

  class LightingManager {
    var directional: DirectionalLight
    var pointLights: map<string, PointLight>
    var spotLights: map<string, SpotLight>

    /** The tables stay within the size the error message promises. */
    predicate WithinCapacity()
      reads this
    {
      |pointLights| <= MaxLights
    }

    constructor ()
      ensures directional == DefaultDirectionalLight && pointLights == map[] && spotLights == map[]
      ensures WithinCapacity()
    {
      directional := DefaultDirectionalLight;
      pointLights := map[];
      spotLights := map[];
    }

    /** Replaces the directional light and returns the stored value. */
    method SetDirectionalLight(light: DirectionalLight) returns (r: DirectionalLight)
      modifies this`directional
      ensures directional == light && r == directional
    {
      directional := light;
      r := directional;
    }

    /** Adds a point light under `name`, keeping an existing one of that
        name, and returns the stored light. With ten point lights already
        present a fatal error is raised instead (`None`). */
    method AddPointLight(gl: Context, name: string, light: PointLight) returns (r: Option<PointLight>)
      modifies this`pointLights, gl
      ensures old(Overflows(pointLights)) ==>
        r == None && pointLights == old(pointLights) && gl.trace == old(gl.trace) + [LogError(Fatal)]
      ensures !old(Overflows(pointLights)) ==>
        pointLights == Insert(old(pointLights), name, light) && r == Some(pointLights[name]) && gl.trace == old(gl.trace)
      ensures old(WithinCapacity()) ==> WithinCapacity()
      ensures gl.nextName == old(gl.nextName) && gl.errors == old(gl.errors)
    {
      if Overflows(pointLights) {
        gl.Call(LogError(Fatal));
        return None;
      }
      InsertSize(pointLights, name, light);
      pointLights := Insert(pointLights, name, light);
      r := Some(pointLights[name]);
    }

    /** Adds a spot light under `name` in the same way; the capacity guard
        counts the point lights, so spot lights are never refused for their
        own number. */
    method AddSpotLight(gl: Context, name: string, light: SpotLight) returns (r: Option<SpotLight>)
      modifies this`spotLights, gl
      ensures old(Overflows(pointLights)) ==>
        r == None && spotLights == old(spotLights) && gl.trace == old(gl.trace) + [LogError(Fatal)]
      ensures !old(Overflows(pointLights)) ==>
        spotLights == Insert(old(spotLights), name, light) && r == Some(spotLights[name]) && gl.trace == old(gl.trace)
      ensures gl.nextName == old(gl.nextName) && gl.errors == old(gl.errors)
    {
      if Overflows(pointLights) {
        gl.Call(LogError(Fatal));
        return None;
      }
      spotLights := Insert(spotLights, name, light);
      r := Some(spotLights[name]);
    }

    /** `PostLightingInstructions`: every registered object, in table order,
        receives the light uniforms. */
    method PostLightingInstructions(gl: Context, registry: Registry, camera: Camera)
      requires registry.Complete()
      modifies gl
      ensures gl.trace == old(gl.trace
        + LightingPass(Keys(registry.renderableObjects), camera.position, directional, pointLights, spotLights))
      ensures gl.nextName == old(gl.nextName) && gl.errors == old(gl.errors)
    {
      var keys := Keys(registry.renderableObjects);
      ghost var t0 := gl.trace;
      var i := 0;
      while i < |keys|
        invariant 0 <= i <= |keys|
        invariant gl.trace == t0 + LightingPass(keys[..i], camera.position, directional, pointLights, spotLights)
        invariant gl.nextName == old(gl.nextName) && gl.errors == old(gl.errors)
      {
        var o := registry.renderableObjects[keys[i]];
        PostObjectLighting(gl, o.name, camera.position);
        LightingPassStep(keys, i, camera.position, directional, pointLights, spotLights);
        ConcatAssociative(t0, LightingPass(keys[..i], camera.position, directional, pointLights, spotLights),
                          ObjectLightingCalls(keys[i], camera.position, directional, pointLights, spotLights));
        i := i + 1;
      }
      assert keys[..i] == keys;
    }

    /** One object of the pass. */
    method PostObjectLighting(gl: Context, owner: string, viewPos: Vec3)
      modifies gl
      ensures gl.trace == old(gl.trace + ObjectLightingCalls(owner, viewPos, directional, pointLights, spotLights))
      ensures gl.nextName == old(gl.nextName) && gl.errors == old(gl.errors)
    {
      ghost var t0 := gl.trace;
      var head := HeadCalls(owner, viewPos, directional);
      var points := Values(pointLights);
      var spots := Values(spotLights);
      gl.Calls(head);
      PostLightTables(gl, owner, points, spots);
      gl.Calls(MaterialCalls(owner));
      ConcatAssociative4(t0, head, PointLightsCalls(owner, points), SpotLightsCalls(owner, spots), MaterialCalls(owner));
    }

    /** The two light loops; each runs only when its table is not empty
        (an empty table has no values). */
    method PostLightTables(gl: Context, owner: string, points: seq<PointLight>, spots: seq<SpotLight>)
      modifies gl
      ensures gl.trace == old(gl.trace) + PointLightsCalls(owner, points) + SpotLightsCalls(owner, spots)
      ensures gl.nextName == old(gl.nextName) && gl.errors == old(gl.errors)
    {
      if points != [] {
        PostPointLights(gl, owner, points);
      }
      if spots != [] {
        PostSpotLights(gl, owner, spots);
      }
    }

    /** The point-light loop with its slot counter `plCount`. */
    method PostPointLights(gl: Context, owner: string, ls: seq<PointLight>)
      modifies gl
      ensures gl.trace == old(gl.trace) + PointLightsCalls(owner, ls)
      ensures gl.nextName == old(gl.nextName) && gl.errors == old(gl.errors)
    {
      ghost var t0 := gl.trace;
      var plCount := 0;
      while plCount < |ls|
        invariant 0 <= plCount <= |ls|
        invariant gl.trace == t0 + PointLightsCalls(owner, ls[..plCount])
        invariant gl.nextName == old(gl.nextName) && gl.errors == old(gl.errors)
      {
        PointLightsStep(owner, ls, plCount);
        ConcatAssociative(t0, PointLightsCalls(owner, ls[..plCount]), PointLightCalls(owner, plCount, ls[plCount]));
        gl.Calls(PointLightCalls(owner, plCount, ls[plCount]));
        plCount := plCount + 1;
      }
      assert ls[..plCount] == ls;
    }

    /** The spot-light loop with its slot counter `slCount`. */
    method PostSpotLights(gl: Context, owner: string, ls: seq<SpotLight>)
      modifies gl
      ensures gl.trace == old(gl.trace) + SpotLightsCalls(owner, ls)
      ensures gl.nextName == old(gl.nextName) && gl.errors == old(gl.errors)
    {
      ghost var t0 := gl.trace;
      var slCount := 0;
      while slCount < |ls|
        invariant 0 <= slCount <= |ls|
        invariant gl.trace == t0 + SpotLightsCalls(owner, ls[..slCount])
        invariant gl.nextName == old(gl.nextName) && gl.errors == old(gl.errors)
      {
        SpotLightsStep(owner, ls, slCount);
        ConcatAssociative(t0, SpotLightsCalls(owner, ls[..slCount]), SpotLightCalls(owner, slCount, ls[slCount]));
        gl.Calls(SpotLightCalls(owner, slCount, ls[slCount]));
        slCount := slCount + 1;
      }
      assert ls[..slCount] == ls;
    }

  }
}
