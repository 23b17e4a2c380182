/**
 * The reflective-shadow-map demo application: its render targets and the three
 * framebuffers built over them, the resize controller that rebuilds only the
 * camera-resolution targets, the two geometry passes over the scene's meshes, the
 * inputs of the shading pass, the debug display switch and the VPL sample table.
 *
 * GPU calls are not modelled; a render target is the record the program creates
 * (size, internal format) plus a generation number that identifies the texture
 * object: every creation takes the next number, so a recreated target is told
 * apart from the one it replaces.
 */
module Rsm {
  import opened Options
  import opened Geometry
  import opened ObjModel
  import opened ObjLoading
  import Bounds

  /** Resolution of the reflective shadow map. */
  const RsmSize: int := 2048
  /** Number of VPL samples generated and uploaded. */
  const MaxVplNum: int := 512

  // ---------------------------------------------------------------- render targets

  /** Internal formats of the textures the application creates. */
  datatype Format = Rgb16f | Rgb32f | Rgba16f | Depth24Stencil8

  datatype RenderTarget = RenderTarget(width: int, height: int, format: Format, generation: nat)

  /** A framebuffer: the generations of its colour attachments, in attachment order, and of its depth attachment. */
  datatype Framebuffer = Framebuffer(colors: seq<nat>, depth: nat)

  function Attachments(fb: Framebuffer): seq<nat> { fb.colors + [fb.depth] }

  /** The G-buffer: albedo, normal and position colour targets and a depth target, and the framebuffer over them. */
  datatype GBufferTargets = GBufferTargets(
    albedo: RenderTarget, normal: RenderTarget, position: RenderTarget, depth: RenderTarget, fbo: Framebuffer)

  /** The reflective shadow map: flux, normal and position colour targets and a depth target, and its framebuffer. */
  datatype ShadowMapTargets = ShadowMapTargets(
    flux: RenderTarget, normal: RenderTarget, position: RenderTarget, depth: RenderTarget, fbo: Framebuffer)

  /** The shaded output: one colour target and a depth target, and its framebuffer. */
  datatype OutputTargets = OutputTargets(color: RenderTarget, depth: RenderTarget, fbo: Framebuffer)

  /**
   * A G-buffer of size w by h as the program creates it: its four targets are
   * created in order (consecutive generations from the albedo's) with their formats,
   * and its framebuffer holds the three colour targets, in order, and the depth target.
   */
  predicate GBufferOk(t: GBufferTargets, w: int, h: int) {
    var g := t.albedo.generation;
    && t.albedo == RenderTarget(w, h, Rgb16f, g)
    && t.normal == RenderTarget(w, h, Rgb16f, g + 1)
    && t.position == RenderTarget(w, h, Rgb32f, g + 2)
    && t.depth == RenderTarget(w, h, Depth24Stencil8, g + 3)
    && t.fbo == Framebuffer([g, g + 1, g + 2], g + 3)
  }

  /** The shadow-map targets as created: RsmSize by RsmSize, same formats and layout as the G-buffer. */
  predicate ShadowMapOk(t: ShadowMapTargets) {
    var g := t.flux.generation;
    && t.flux == RenderTarget(RsmSize, RsmSize, Rgb16f, g)
    && t.normal == RenderTarget(RsmSize, RsmSize, Rgb16f, g + 1)
    && t.position == RenderTarget(RsmSize, RsmSize, Rgb32f, g + 2)
    && t.depth == RenderTarget(RsmSize, RsmSize, Depth24Stencil8, g + 3)
    && t.fbo == Framebuffer([g, g + 1, g + 2], g + 3)
  }

  /** The output targets as created: RGBA16F colour and depth at w by h, one colour attachment. */
  predicate OutputOk(t: OutputTargets, w: int, h: int) {
    var g := t.color.generation;
    && t.color == RenderTarget(w, h, Rgba16f, g)
    && t.depth == RenderTarget(w, h, Depth24Stencil8, g + 1)
    && t.fbo == Framebuffer([g], g + 1)
  }

  /** The generation ranges [a, a + m) and [b, b + n) do not overlap. */
  predicate Apart(a: int, m: int, b: int, n: int) { a + m <= b || b + n <= a }

  // ---------------------------------------------------------------- debug display

  /** The textures the debug display can show. */
  datatype DisplaySource = Output | GBufferAlbedo | GBufferNormal | GBufferPosition | RsmFlux | RsmNormal | RsmPosition

  /** The display switch: modes 0 to 6 pick a texture, every other mode shows the final output. */
  function SourceForMode(mode: int): DisplaySource {
    if mode == 1 then GBufferAlbedo
    else if mode == 2 then GBufferNormal
    else if mode == 3 then GBufferPosition
    else if mode == 4 then RsmFlux
    else if mode == 5 then RsmNormal
    else if mode == 6 then RsmPosition
    else Output
  }

  /** The entry of the debug combo box that shows a source. */
  function ModeOf(src: DisplaySource): (mode: int)
    ensures 0 <= mode < 7
  {
    match src
    case Output => 0
    case GBufferAlbedo => 1
    case GBufferNormal => 2
    case GBufferPosition => 3
    case RsmFlux => 4
    case RsmNormal => 5
    case RsmPosition => 6
  }

  /**
   * The seven combo entries and the seven sources correspond one to one, and every
   * mode outside 0..6, negative ones included, falls back to the output.
   */
  lemma DisplayModeRoundTrip(src: DisplaySource, mode: int)
    ensures SourceForMode(ModeOf(src)) == src
    ensures 0 <= mode < 7 ==> ModeOf(SourceForMode(mode)) == mode
    ensures !(0 <= mode < 7) ==> SourceForMode(mode) == Output
  {
  }

  // ---------------------------------------------------------------- geometry passes

  /** The material uniforms a geometry pass sets before drawing a mesh. */
  datatype MaterialUniforms = MaterialUniforms(diffuseColor: Vec3, hasTexture: bool)

  /** One draw: the mesh, the material uniforms set for it (if any) and the texture bound for it (if any). */
  datatype DrawCall = DrawCall(mesh: MeshData, uniforms: Option<MaterialUniforms>, texture: Option<Texture>)

  datatype GeometryPass = GeometryPass(target: Framebuffer, viewportWidth: int, viewportHeight: int, draws: seq<DrawCall>)

  predicate Drawable(meshes: seq<ObjMesh>) {
    forall i :: 0 <= i < |meshes| ==> meshes[i].mesh.Some?
  }

  /**
   * The draw of one mesh: material uniforms only for a material index within the
   * material list; the diffuse texture only in a pass that binds textures, for a
   * material that has the flag set and holds a texture.
   */
  function DrawCallFor(m: ObjMesh, materials: seq<ObjMaterial>, bindTexture: bool): DrawCall
    requires m.mesh.Some?
  {
    var i := m.materialIndex;
    if 0 <= i < |materials| then
      var mat := materials[i];
      DrawCall(m.mesh.value, Some(MaterialUniforms(mat.diffuseColor, mat.hasTexture)),
               if bindTexture && mat.hasTexture && mat.diffuseTexture.Some? then mat.diffuseTexture else None)
    else
      DrawCall(m.mesh.value, None, None)
  }

  lemma DrawCallForSpec(m: ObjMesh, materials: seq<ObjMaterial>, bindTexture: bool)
    requires m.mesh.Some?
    ensures var d := DrawCallFor(m, materials, bindTexture);
      && d.mesh == m.mesh.value
      && (d.uniforms.Some? <==> 0 <= m.materialIndex < |materials|)
      && (d.uniforms.Some? ==>
            d.uniforms.value == MaterialUniforms(materials[m.materialIndex].diffuseColor,
                                                 materials[m.materialIndex].hasTexture))
      && (d.texture.Some? <==>
            bindTexture && 0 <= m.materialIndex < |materials| &&
            materials[m.materialIndex].hasTexture && materials[m.materialIndex].diffuseTexture.Some?)
      && (d.texture.Some? ==> d.texture == materials[m.materialIndex].diffuseTexture)
  {
  }

  /** Every mesh the loader produces can be drawn: none is left without its mesh. */
  lemma LoadedMeshesDrawable(attrib: Attrib, shapes: seq<ShapeMesh>, orders: seq<seq<int>>, materials: seq<ObjMaterial>)
    requires WellFormedShapes(attrib, shapes) && |orders| == |shapes|
    requires forall s :: 0 <= s < |shapes| ==> IsKeyOrder(orders[s], shapes[s].materialIds)
    ensures Drawable(AllMeshes(attrib, shapes, orders, materials))
  {
    AllMeshesEmitted(attrib, shapes, orders, materials);
  }

  // ---------------------------------------------------------------- VPL samples

  /** The two uniform draws of one sample, given as xi1 and the sine and cosine of the angle 2 pi xi2. */
  datatype VplDraw = VplDraw(xi1: real, sinAngle: real, cosAngle: real)

  /** One VPL sample: a disc offset (xi1 sin, xi1 cos), the weight xi1 squared and w = 0. */
  function VplSample(d: VplDraw): (s: Vec4)
    ensures s.z == d.xi1 * d.xi1 && s.w == 0.0
  {
    Vec4(d.xi1 * d.sinAngle, d.xi1 * d.cosAngle, d.xi1 * d.xi1, 0.0)
  }

  /** With a true sine and cosine, the weight of a sample is the squared length of its offset. */
  lemma VplWeightIsSquaredRadius(d: VplDraw)
    requires d.sinAngle * d.sinAngle + d.cosAngle * d.cosAngle == 1.0
    ensures var s := VplSample(d); s.x * s.x + s.y * s.y == s.z
  {
    var s := VplSample(d);
    calc {
      s.x * s.x + s.y * s.y;
      (d.xi1 * d.xi1) * (d.sinAngle * d.sinAngle) + (d.xi1 * d.xi1) * (d.cosAngle * d.cosAngle);
      (d.xi1 * d.xi1) * (d.sinAngle * d.sinAngle + d.cosAngle * d.cosAngle);
    }
  }

  /** `resize`: keeps the first n elements and pads with zero vectors. */
  function Resized(s: seq<Vec4>, n: nat): (r: seq<Vec4>)
    ensures |r| == n
    ensures forall i :: 0 <= i < n && i < |s| ==> r[i] == s[i]
  {
    if |s| >= n then s[..n] else s + seq(n - |s|, _ => Vec4(0.0, 0.0, 0.0, 0.0))
  }

  // ---------------------------------------------------------------- shading pass

  /** What the shading pass binds and uploads before drawing the screen triangle. */
  datatype ShadingInputs = ShadingInputs(
    target: Framebuffer,
    viewportWidth: int,
    viewportHeight: int,
    textureUnits: seq<nat>,
    rsmResolution: int,
    vplNum: int,
    maxSampleRadius: real,
    indirectStrength: real,
    samples: seq<Vec4>,
    enableRsm: bool)

  datatype Frame = Frame(
    resized: bool,
    gbuffer: GeometryPass,
    rsm: GeometryPass,
    shading: ShadingInputs,
    display: RenderTarget,
    displayWidth: int,
    displayHeight: int,
    displayMode: int)

  /** The parameters the settings panel edits. */
  datatype Params = Params(
    enableRsm: bool, vplNum: int, maxSampleRadius: real, indirectStrength: real, displayMode: int)

  /** The parameters at start-up: RSM on, 64 VPLs, radius 25, strength 5, final output shown. */
  const DefaultParams: Params := Params(true, 64, 25.0, 5.0, 0)

  /** Arbitrary contents for a target before initialisation creates it. */
  const Unset: RenderTarget := RenderTarget(0, 0, Rgb16f, 0)
  const NoFramebuffer: Framebuffer := Framebuffer([], 0)

  class RsmApp {
    /** The framebuffer size last read from the window. */
    var currentWidth: int
    var currentHeight: int
    /** The size the camera-resolution targets were created at. */
    var width: int
    var height: int

    var gbuffer: GBufferTargets
    var shadowMap: ShadowMapTargets
    var output: OutputTargets

    /** Number of textures created so far; the next texture gets this generation. */
    var created: nat

    var vplSamples: seq<Vec4>

    var params: Params

    const scene: ObjLoader

    /** The generations of all ten targets. */
    function Generations(): seq<nat>
      reads this
    {
      [gbuffer.albedo.generation, gbuffer.normal.generation, gbuffer.position.generation, gbuffer.depth.generation,
       shadowMap.flux.generation, shadowMap.normal.generation, shadowMap.position.generation,
       shadowMap.depth.generation, output.color.generation, output.depth.generation]
    }

    /**
     * The three target groups are as created, the camera-resolution ones at the
     * stored size, and their generation ranges are disjoint and already used.
     */
    predicate TargetsOk()
      reads this
    {
      && GBufferOk(gbuffer, width, height)
      && ShadowMapOk(shadowMap)
      && OutputOk(output, width, height)
      && Apart(gbuffer.albedo.generation, 4, shadowMap.flux.generation, 4)
      && Apart(gbuffer.albedo.generation, 4, output.color.generation, 2)
      && Apart(shadowMap.flux.generation, 4, output.color.generation, 2)
      && gbuffer.albedo.generation + 4 <= created
      && shadowMap.flux.generation + 4 <= created
      && output.color.generation + 2 <= created
    }

    /**
     * What holds between any two steps: the targets are as created at the stored
     * size, the sample table has MaxVplNum entries and every scene mesh can be drawn.
     */
    predicate Consistent()
      reads this, scene
    {
      && TargetsOk()
      && |vplSamples| == MaxVplNum
      && Drawable(scene.meshes)
    }

    /**
     * The state after initialisation and after every frame: consistent, and the
     * stored size is the framebuffer size last seen.
     */
    predicate Valid()
      reads this, scene
    {
      && width == currentWidth && height == currentHeight
      && Consistent()
    }

    /** The ten targets are ten distinct texture objects, all already created. */
    lemma TargetsDistinct()
      requires TargetsOk()
      ensures forall i, j :: 0 <= i < j < |Generations()| ==> Generations()[i] != Generations()[j]
      ensures forall i :: 0 <= i < |Generations()| ==> Generations()[i] < created
    {
    }

    /**
     * Construction followed by initialisation: the stored size is the framebuffer
     * size, the scene is loaded (a failed load leaves it empty), all targets and
     * framebuffers are created and the sample table is filled.
     */
    constructor(fbWidth: int, fbHeight: int, scenePath: string, parsed: Option<ParsedObj>,
                groupOrders: seq<seq<int>>, available: set<string>, draws: seq<VplDraw>)
      requires parsed.Some? ==> WellFormedShapes(parsed.value.attrib, parsed.value.shapes)
      requires parsed.Some? ==> |groupOrders| == |parsed.value.shapes|
      requires parsed.Some? ==> forall s :: 0 <= s < |parsed.value.shapes| ==>
        IsKeyOrder(groupOrders[s], parsed.value.shapes[s].materialIds)
      requires |draws| == MaxVplNum
      ensures Valid()
      ensures currentWidth == fbWidth && currentHeight == fbHeight
      ensures params == DefaultParams
      ensures forall i :: 0 <= i < MaxVplNum ==> vplSamples[i] == VplSample(draws[i])
      ensures parsed.None? ==> scene.meshes == []
      ensures parsed.Some? ==>
        scene.materials == Textured(MaterialList(parsed.value.materials), BasePath(scenePath), available)
      ensures parsed.Some? ==>
        scene.meshes == AllMeshes(parsed.value.attrib, parsed.value.shapes, groupOrders, scene.materials)
      ensures parsed.None? ==> scene.minBounds == Bounds.EmptyMin && scene.maxBounds == Bounds.EmptyMax
      ensures parsed.Some? ==>
        scene.minBounds == Bounds.FoldMin(Bounds.EmptyMin, AllPositions(parsed.value.attrib, parsed.value.shapes, groupOrders))
      ensures parsed.Some? ==>
        scene.maxBounds == Bounds.FoldMax(Bounds.EmptyMax, AllPositions(parsed.value.attrib, parsed.value.shapes, groupOrders))
      ensures fresh(scene)
    {
      currentWidth, currentHeight := 1024, 768;
      width, height := 1024, 768;
      gbuffer := GBufferTargets(Unset, Unset, Unset, Unset, NoFramebuffer);
      shadowMap := ShadowMapTargets(Unset, Unset, Unset, Unset, NoFramebuffer);
      output := OutputTargets(Unset, Unset, NoFramebuffer);
      created := 0;
      vplSamples := [];
      params := DefaultParams;
      scene := new ObjLoader();
      new;
      currentWidth, currentHeight := fbWidth, fbHeight;
      width, height := currentWidth, currentHeight;
      LoadScene(scenePath, parsed, groupOrders, available);
      CreateFramebuffers();
      GenerateVplSamples(draws);
    }

    /**
     * Loads the scene file into the scene loader; a failure is only reported, and
     * leaves the scene empty. Either way every scene mesh can be drawn.
     */
    method LoadScene(scenePath: string, parsed: Option<ParsedObj>, groupOrders: seq<seq<int>>,
                     available: set<string>)
      requires parsed.Some? ==> WellFormedShapes(parsed.value.attrib, parsed.value.shapes)
      requires parsed.Some? ==> |groupOrders| == |parsed.value.shapes|
      requires parsed.Some? ==> forall s :: 0 <= s < |parsed.value.shapes| ==>
        IsKeyOrder(groupOrders[s], parsed.value.shapes[s].materialIds)
      requires scene.meshes == []
      modifies scene
      ensures Drawable(scene.meshes)
      ensures parsed.None? ==> scene.meshes == []
      ensures parsed.Some? ==>
        scene.materials == Textured(MaterialList(parsed.value.materials), BasePath(scenePath), available)
      ensures parsed.Some? ==>
        scene.meshes == AllMeshes(parsed.value.attrib, parsed.value.shapes, groupOrders, scene.materials)
      ensures parsed.None? ==> scene.minBounds == old(scene.minBounds) && scene.maxBounds == old(scene.maxBounds)
      ensures parsed.Some? ==>
        scene.minBounds == Bounds.FoldMin(old(scene.minBounds), AllPositions(parsed.value.attrib, parsed.value.shapes, groupOrders))
      ensures parsed.Some? ==>
        scene.maxBounds == Bounds.FoldMax(old(scene.maxBounds), AllPositions(parsed.value.attrib, parsed.value.shapes, groupOrders))
    {
      var ok := scene.Load(scenePath, parsed, groupOrders, available);
      if ok {
        LoadedMeshesDrawable(parsed.value.attrib, parsed.value.shapes, groupOrders, scene.materials);
      }
    }

    /**
     * Creates all targets, each taking the next generation: the G-buffer and output
     * targets at the stored size, the shadow-map targets at RsmSize.
     */
    method CreateFramebuffers()
      modifies this`gbuffer, this`shadowMap, this`output, this`created
      ensures TargetsOk()
      ensures created == old(created) + 10
      ensures gbuffer.albedo.generation >= old(created) && shadowMap.flux.generation >= old(created)
      ensures output.color.generation >= old(created)
    {
      var g := created;
      gbuffer := GBufferTargets(
        RenderTarget(width, height, Rgb16f, g),
        RenderTarget(width, height, Rgb16f, g + 1),
        RenderTarget(width, height, Rgb32f, g + 2),
        RenderTarget(width, height, Depth24Stencil8, g + 3),
        Framebuffer([g, g + 1, g + 2], g + 3));
      shadowMap := ShadowMapTargets(
        RenderTarget(RsmSize, RsmSize, Rgb16f, g + 4),
        RenderTarget(RsmSize, RsmSize, Rgb16f, g + 5),
        RenderTarget(RsmSize, RsmSize, Rgb32f, g + 6),
        RenderTarget(RsmSize, RsmSize, Depth24Stencil8, g + 7),
        Framebuffer([g + 4, g + 5, g + 6], g + 7));
      output := OutputTargets(
        RenderTarget(width, height, Rgba16f, g + 8),
        RenderTarget(width, height, Depth24Stencil8, g + 9),
        Framebuffer([g + 8], g + 9));
      created := g + 10;
    }

    /**
     * Recreates the G-buffer and output targets at the current framebuffer size,
     * then stores that size; the shadow-map targets are not touched.
     */
    method RecreateGBuffer()
      requires Consistent()
      modifies this`gbuffer, this`output, this`created, this`width, this`height
      ensures Valid()
      ensures width == currentWidth && height == currentHeight
      ensures gbuffer.albedo.generation >= old(created) && output.color.generation >= old(created)
      ensures created == old(created) + 6
    {
      var g := created;
      gbuffer := GBufferTargets(
        RenderTarget(currentWidth, currentHeight, Rgb16f, g),
        RenderTarget(currentWidth, currentHeight, Rgb16f, g + 1),
        RenderTarget(currentWidth, currentHeight, Rgb32f, g + 2),
        RenderTarget(currentWidth, currentHeight, Depth24Stencil8, g + 3),
        Framebuffer([g, g + 1, g + 2], g + 3));
      output := OutputTargets(
        RenderTarget(currentWidth, currentHeight, Rgba16f, g + 4),
        RenderTarget(currentWidth, currentHeight, Depth24Stencil8, g + 5),
        Framebuffer([g + 4], g + 5));
      created := g + 6;
      width := currentWidth;
      height := currentHeight;
    }

    /** Sizes the table to MaxVplNum entries and fills entry i from draw i. */
    method GenerateVplSamples(draws: seq<VplDraw>)
      requires |draws| == MaxVplNum
      modifies this`vplSamples
      ensures |vplSamples| == MaxVplNum
      ensures forall i :: 0 <= i < MaxVplNum ==> vplSamples[i] == VplSample(draws[i])
    {
      vplSamples := Resized(vplSamples, MaxVplNum);
      for i := 0 to MaxVplNum
        invariant |vplSamples| == MaxVplNum
        invariant forall k :: 0 <= k < i ==> vplSamples[k] == VplSample(draws[k])
      {
        var d := draws[i];
        vplSamples := vplSamples[i := Vec4(d.xi1 * d.sinAngle, d.xi1 * d.cosAngle, d.xi1 * d.xi1, 0.0)];
      }
    }

    /**
     * The G-buffer pass: renders into the G-buffer framebuffer over the stored
     * size and draws every scene mesh once, in list order, with its material's
     * uniforms and diffuse texture when DrawCallFor grants them.
     */
    method GBufferPass() returns (pass: GeometryPass)
      requires Drawable(scene.meshes)
      ensures pass.target == gbuffer.fbo && pass.viewportWidth == width && pass.viewportHeight == height
      ensures |pass.draws| == |scene.meshes|
      ensures forall i :: 0 <= i < |scene.meshes| ==>
        pass.draws[i] == DrawCallFor(scene.meshes[i], scene.materials, true)
    {
      var draws: seq<DrawCall> := [];
      var meshes := scene.meshes;
      var materials := scene.materials;
      for i := 0 to |meshes|
        invariant |draws| == i
        invariant forall k :: 0 <= k < i ==> draws[k] == DrawCallFor(meshes[k], materials, true)
      {
        var mesh := meshes[i];
        var matIdx := mesh.materialIndex;
        var uniforms: Option<MaterialUniforms> := None;
        var texture: Option<Texture> := None;
        if matIdx >= 0 && matIdx < |materials| {
          var mat := materials[matIdx];
          uniforms := Some(MaterialUniforms(mat.diffuseColor, mat.hasTexture));
          if mat.hasTexture && mat.diffuseTexture.Some? {
            texture := mat.diffuseTexture;
          }
        }
        draws := draws + [DrawCall(mesh.mesh.value, uniforms, texture)];
      }
      pass := GeometryPass(gbuffer.fbo, width, height, draws);
    }

    /**
     * The shadow-map pass: renders into the shadow-map framebuffer over RsmSize by
     * RsmSize and draws every scene mesh once, in list order, with its material's
     * uniforms when DrawCallFor grants them and never a texture.
     */
    method RsmBufferPass() returns (pass: GeometryPass)
      requires Drawable(scene.meshes)
      ensures pass.target == shadowMap.fbo && pass.viewportWidth == RsmSize && pass.viewportHeight == RsmSize
      ensures |pass.draws| == |scene.meshes|
      ensures forall i :: 0 <= i < |scene.meshes| ==>
        pass.draws[i] == DrawCallFor(scene.meshes[i], scene.materials, false)
    {
      var draws: seq<DrawCall> := [];
      var meshes := scene.meshes;
      var materials := scene.materials;
      for i := 0 to |meshes|
        invariant |draws| == i
        invariant forall k :: 0 <= k < i ==> draws[k] == DrawCallFor(meshes[k], materials, false)
      {
        var mesh := meshes[i];
        var matIdx := mesh.materialIndex;
        var uniforms: Option<MaterialUniforms> := None;
        if matIdx >= 0 && matIdx < |materials| {
          var mat := materials[matIdx];
          uniforms := Some(MaterialUniforms(mat.diffuseColor, mat.hasTexture));
        }
        draws := draws + [DrawCall(mesh.mesh.value, uniforms, None)];
      }
      pass := GeometryPass(shadowMap.fbo, RsmSize, RsmSize, draws);
    }

    /**
     * The shading pass: renders into the output framebuffer over the stored size,
     * samples the three G-buffer colour targets, the three shadow-map colour
     * targets and the shadow-map depth on units 0 to 6, and uploads all MaxVplNum
     * samples whatever the VPL count is. None of the sampled textures is attached
     * to the framebuffer it renders into.
     */
    function ShadingPass(): (s: ShadingInputs)
      requires Valid()
      reads this, scene
      ensures s.target == output.fbo && s.viewportWidth == width && s.viewportHeight == height
      ensures s.textureUnits == [gbuffer.albedo.generation, gbuffer.normal.generation, gbuffer.position.generation,
                                 shadowMap.flux.generation, shadowMap.normal.generation,
                                 shadowMap.position.generation, shadowMap.depth.generation]
      ensures |s.samples| == MaxVplNum && s.samples == vplSamples
      ensures s.vplNum == params.vplNum && s.rsmResolution == RsmSize
      ensures s.maxSampleRadius == params.maxSampleRadius && s.indirectStrength == params.indirectStrength
      ensures s.enableRsm == params.enableRsm
      ensures forall i, j :: 0 <= i < |s.textureUnits| && 0 <= j < |Attachments(s.target)| ==>
        s.textureUnits[i] != Attachments(s.target)[j]
    {
      ShadingInputs(output.fbo, width, height,
        [gbuffer.albedo.generation, gbuffer.normal.generation, gbuffer.position.generation,
         shadowMap.flux.generation, shadowMap.normal.generation, shadowMap.position.generation,
         shadowMap.depth.generation],
        RsmSize, params.vplNum, params.maxSampleRadius, params.indirectStrength,
        vplSamples[..MaxVplNum], params.enableRsm)
    }

    /** The target the display pass shows for the current mode. */
    function DisplayTarget(): (t: RenderTarget)
      reads this
      ensures t == match SourceForMode(params.displayMode)
        case Output => output.color
        case GBufferAlbedo => gbuffer.albedo
        case GBufferNormal => gbuffer.normal
        case GBufferPosition => gbuffer.position
        case RsmFlux => shadowMap.flux
        case RsmNormal => shadowMap.normal
        case RsmPosition => shadowMap.position
      ensures !(0 <= params.displayMode < 7) ==> t == output.color
    {
      match params.displayMode
      case 1 => gbuffer.albedo
      case 2 => gbuffer.normal
      case 3 => gbuffer.position
      case 4 => shadowMap.flux
      case 5 => shadowMap.normal
      case 6 => shadowMap.position
      case _ => output.color
    }

    /**
     * One frame. The targets are rebuilt iff the framebuffer size differs from the
     * stored one in width or in height (a size of 0 included); afterwards the
     * stored size is the framebuffer size. Without a change no target and no size
     * changes. The shadow-map targets never change. Then the four passes run.
     */
    method Update(newWidth: int, newHeight: int) returns (frame: Frame)
      requires Valid()
      modifies this`currentWidth, this`currentHeight, this`width, this`height, this`created
      modifies this`gbuffer, this`output
      ensures Valid()
      ensures frame.resized <==> (newWidth != old(currentWidth) || newHeight != old(currentHeight))
      ensures currentWidth == newWidth && currentHeight == newHeight
      ensures width == newWidth && height == newHeight
      ensures !frame.resized ==> gbuffer == old(gbuffer) && output == old(output) && created == old(created)
      ensures frame.resized ==> gbuffer.albedo.generation >= old(created) && output.color.generation >= old(created)
      ensures shadowMap == old(shadowMap)
      ensures frame.gbuffer.target == gbuffer.fbo && frame.rsm.target == shadowMap.fbo
      ensures frame.gbuffer.viewportWidth == newWidth && frame.gbuffer.viewportHeight == newHeight
      ensures frame.rsm.viewportWidth == RsmSize && frame.rsm.viewportHeight == RsmSize
      ensures |frame.gbuffer.draws| == |scene.meshes| && |frame.rsm.draws| == |scene.meshes|
      ensures forall i :: 0 <= i < |scene.meshes| ==>
        frame.gbuffer.draws[i] == DrawCallFor(scene.meshes[i], scene.materials, true) &&
        frame.rsm.draws[i] == DrawCallFor(scene.meshes[i], scene.materials, false)
      ensures frame.shading == ShadingPass() && frame.display == DisplayTarget()
      ensures frame.displayWidth == newWidth && frame.displayHeight == newHeight
      ensures frame.displayMode == params.displayMode
    {
      var resized := false;
      if newWidth != currentWidth || newHeight != currentHeight {
        currentWidth := newWidth;
        currentHeight := newHeight;
        RecreateGBuffer();
        resized := true;
      }
      var gbufferPass := GBufferPass();
      var rsmPass := RsmBufferPass();
      frame := Frame(resized, gbufferPass, rsmPass, ShadingPass(), DisplayTarget(), width, height, params.displayMode);
    }
  }
}
