# Reflective shadow maps demo: verified model of its discrete core

The program renders a scene with reflective shadow maps (RSM). Each frame has four passes:

1. A G-buffer pass renders albedo, normal and position at window resolution.
2. A shadow-map pass renders flux, normal, position and depth at 2048 × 2048 from the light.
3. A shading pass uploads 512 precomputed virtual point light (VPL) samples, together with a VPL count (64 at start-up), and gathers indirect light from them.
4. A display pass shows either the shaded output or one of six debug textures.

The scene comes from a Wavefront OBJ loader. A second demo builds a textured unit cube by hand.

This Dafny project models the parts of that program that are decisions rather than GPU calls:

- **Cube builder** (`cube.dfy`, module `Cube`): `create_cube_mesh` pushes six faces of four vertices and six indices each. The model proves:
  - the mesh has 24 vertices and 36 indices;
  - each face's indices are `base, base+1, base+2, base, base+2, base+3`, and every index is in range;
  - each face is a true face of the unit cube: corners at ±0.5 on its plane, shared normal and tangent, UVs in the fixed order;
  - both triangles of each face wind counter-clockwise seen from outside.
- **Bounding box** (`bounds.dfy`, module `Bounds`):
  - the loader's min/max fold, starting from the empty box (FLT_MAX, −FLT_MAX);
  - the centre of the box and its squared radius.
- **OBJ flattening, pure rules** (`obj_model.dfy`, module `ObjModel`):
  - the material list and its default material;
  - grouping faces by material id, with negative ids going to group 0;
  - per-face index offsets as prefix sums;
  - the vertex built for each face corner;
  - the meshes emitted per group and per shape;
  - the texture base path and the backslash rewrite;
  - the texture pass.
- **OBJ loader object** (`obj_loader.dfy`, module `ObjLoading`): the class `ObjLoader` with its fields (meshes, materials, min/max bounds, base path). Its `Load`, `LoadTextures` and `CalculateBounds` are imperative methods whose loops are proved against the pure rules above.
- **Application** (`rsm_app.dfy`, module `Rsm`): the class `RsmApp` with:
  - its stored and current framebuffer sizes;
  - its ten render targets and three framebuffers;
  - the VPL sample table and the settings.

  Its operations are initialisation, framebuffer creation, the resize controller, the two geometry passes, the shading-pass inputs, the debug display switch and VPL sample generation.

Shared pieces: `geometry.dfy` (vectors, vertex record, component-wise min/max) and `options.dfy` (`Option`).

Modelling conventions:

- Single-precision floats are modelled as `real`, so rounding is not modelled. FLT_MAX is the exact real (2 − 2⁻²³)·2¹²⁷.
- A render target is a record holding its width, height and internal format, plus a generation number. Every texture creation takes the next number, so "recreated" and "not touched" are statements about generations.
- The targets of each framebuffer are grouped in one record field: G-buffer, shadow map, output.
- Inputs that come from foreign code are parameters:
  - the OBJ parser's result, or `None` when parsing fails;
  - the iteration order of each shape's `unordered_map` of face groups;
  - which texture paths can be constructed;
  - the window's framebuffer size;
  - the random draws of the VPL samples, given as ξ1 together with sin and cos of 2πξ2.

## Model

| member | source | states |
|---|---|---|
| Cube.CreateCubeMesh | src/impl/main.cpp:17-103 | the result is exactly the six face blocks pushed in the order front, back, right, left, top, bottom: quad f is `Quad` of block f and its indices are `QuadIndices(4f)`. It satisfies `CubeMesh`. That predicate requires 24 vertices and 36 indices. Face f's six indices are `4f, 4f+1, 4f+2, 4f, 4f+2, 4f+3`, and every index is below the vertex count. Each quad of four vertices is a cube face that winds outward, and the six faces have distinct normals |
| Cube.PushFace | src/impl/main.cpp:30-35 | pushing one face appends exactly its four vertices, and the indices `base..base+3` as two triangles, where base is the vertex count before the push |
| Cube.Quad | src/impl/main.cpp:31-34 | the four vertices one face block pushes: its corners p0..p3 in order, each with the block's normal and tangent, the UVs (0,0), (1,0), (1,1), (0,1), a zero second UV and white |
| Cube.QuadIndices | src/impl/main.cpp:35 | the six indices of one face over base b: the triangles (b, b+1, b+2) and (b, b+2, b+3) |
| Cube.BuiltIsCube | src/impl/main.cpp:20-96 | after the six pushes in order, the vertices and indices form a `CubeMesh` |
| Cube.PushKeepsBuilt | src/impl/main.cpp:30-35 | pushing the next face keeps every earlier face's four vertices and six indices in place and adds the new face's at base 4n |
| Cube.BuiltIndicesInRange | src/impl/main.cpp:35-95 | every index of the six faces' index lists is below 24 |
| Cube.BuiltFaces | src/impl/main.cpp:28-94 | each of the six quads is a cube face: shared normal and tangent, UVs (0,0), (1,0), (1,1), (0,1), second UV zero, white, corners at ±0.5 on the face's plane with the tangent as first edge |
| Cube.BuiltWinding | src/impl/main.cpp:19 | each quad's edges p1−p0 and p3−p0 have the face normal as cross product, so both triangles wind counter-clockwise seen from outside |
| Cube.BuiltNormalsDistinct | src/impl/main.cpp:28-88 | the six faces have six different normals |
| Cube.QuadIsCubeFace | src/impl/main.cpp:31-34 | the four vertices a face block pushes form a cube face when its literal data does |
| Cube.QuadWindsOutward | src/impl/main.cpp:31-34 | the four vertices a face block pushes wind outward when its literal data does |
| Cube.BlockIsFace | src/impl/main.cpp:28-94 | each of the six literal face blocks has axis-unit normal, tangent with w = 1 and corners on its plane forming a parallelogram |
| Cube.BlockWinds | src/impl/main.cpp:28-94 | each of the six literal face blocks winds counter-clockwise around its normal |
| Bounds.FoldContains | src/impl/obj_loader.cpp:189-194 | after folding positions into the box, every folded position lies component-wise between the minimum and the maximum |
| Bounds.FoldMin | src/impl/obj_loader.cpp:189-194 | the box minimum after `glm::min` folds each position, in order, into the starting minimum |
| Bounds.FoldMax | src/impl/obj_loader.cpp:189-194 | the box maximum after `glm::max` folds each position, in order, into the starting maximum |
| Bounds.FoldMonotone | src/impl/obj_loader.cpp:189-194 | the fold never raises the minimum and never lowers the maximum |
| Bounds.FoldTight | src/impl/obj_loader.cpp:189-194 | the fold's minimum is the greatest lower bound of the start and the positions; its maximum is the least upper bound |
| Bounds.FoldAppend | src/impl/obj_loader.cpp:189-194 | folding a then b equals folding a + b, so folds over successive meshes compose into one fold |
| Bounds.FirstPointFromEmpty | src/impl/obj_loader.hpp:54-55 | folding one finite position into the empty box (FLT_MAX, −FLT_MAX) gives min = max = that position |
| Bounds.Center | src/impl/obj_loader.hpp:48 | the centre is as far from the minimum as from the maximum, and it lies in the box when the box is non-empty |
| Bounds.RadiusSquared | src/impl/obj_loader.cpp:196-199 | the squared radius is non-negative and equals the squared distance from the centre to either corner |
| Bounds.BoxInSphere | src/impl/obj_loader.cpp:196-199 | every point of the box lies within that radius of the centre |
| ObjModel.NewObjMesh | src/impl/obj_loader.hpp:11-15 | a new mesh record has no mesh, no name and material index −1 |
| ObjModel.NewObjMaterial | src/impl/obj_loader.hpp:18-26 | a new material has diffuse (1,1,1), specular 0, shininess 1 and no texture |
| ObjModel.FromMtl | src/impl/obj_loader.cpp:37-46 | a material built from an MTL record copies name, colours and shininess, and asks for a texture iff the record names one |
| ObjModel.FromMtls | src/impl/obj_loader.cpp:36-49 | one material per MTL record, in order: material i is `FromMtl` of record i |
| ObjModel.DefaultMaterial | src/impl/obj_loader.cpp:53-55 | the fallback material is named "default", has diffuse 0.8 and has no texture |
| ObjModel.MaterialList | src/impl/obj_loader.cpp:35-57 | the loader's material list: one material per MTL record, in order, or the single default material when there are none |
| ObjModel.MaterialListShape | src/impl/obj_loader.cpp:35-57 | the material list is never empty. It is exactly [default] when the MTL has no materials, and the MTL's materials in order otherwise |
| ObjModel.GroupKey | src/impl/obj_loader.cpp:69-70 | a face's group key is its material id, or 0 for a negative id; it is never negative |
| ObjModel.FacesIn | src/impl/obj_loader.cpp:68-72 | a group's face list holds valid face numbers in strictly increasing order |
| ObjModel.FacesInMembership | src/impl/obj_loader.cpp:68-72 | a face is in the group of a key iff its material id maps to that key, so each face lands in exactly one group |
| ObjModel.GroupKeys | src/impl/obj_loader.cpp:68-72 | every face's key is a group key, and no group key is negative |
| ObjModel.GroupNonEmptyIffKey | src/impl/obj_loader.cpp:71 | a key's group is non-empty iff the key is in the grouping map |
| ObjModel.OffsetBound | src/impl/obj_loader.cpp:83-88 | offset(f+1) = offset(f) + size(f), and offset(f) + size(f) ≤ the total corner count, so face f's corners are in range |
| ObjModel.Offset | src/impl/obj_loader.cpp:83-86 | the index of face f's first corner: the sum of the corner counts of faces 0..f−1 |
| ObjModel.MakeVertexSpec | src/impl/obj_loader.cpp:92-125 | a corner's vertex has the referenced position. Its normal is the referenced one when the normal index is in range, else (0,1,0). Its UV is the referenced one with v flipped to 1 − v when in range, else (0,0). Its tangent is (1,0,0,1), its second UV zero, its colour white |
| ObjModel.MakeVertex | src/impl/obj_loader.cpp:92-125 | the vertex for one face corner: its position, its normal or (0,1,0) when the normal index is missing or out of range, its UV with v flipped or (0,0) when missing, tangent (1,0,0,1), zero second UV and white |
| ObjModel.FaceVertices | src/impl/obj_loader.cpp:88-89 | a face yields one vertex per corner |
| ObjModel.FaceVertexAt | src/impl/obj_loader.cpp:89-90 | corner v of face f is built from the corner at offset(f) + v, which is in range |
| ObjModel.GroupVertices | src/impl/obj_loader.cpp:82-130 | a group emits as many vertices as the sizes of its faces add up to |
| ObjModel.GroupSize | src/impl/obj_loader.cpp:82-130 | a group's vertex count is the sum of its faces' sizes |
| ObjModel.PositionsAppend | src/impl/obj_loader.cpp:133 | the positions of two vertex lists concatenated are the two position lists concatenated |
| ObjModel.MaterialNameFor | src/impl/obj_loader.cpp:143-145 | a mesh takes its material's name iff its id is within the material list, and stays unnamed otherwise |
| ObjModel.GroupMesh | src/impl/obj_loader.cpp:75-150 | the meshes one material group emits: none when the group has no vertices, otherwise one mesh of its vertices with indices 0..n−1, the group key as material index and the material's name when the key indexes a material |
| ObjModel.ShapeMeshes | src/impl/obj_loader.cpp:64-150 | the meshes one shape emits: the meshes of its groups, concatenated in the map's iteration order |
| ObjModel.AllMeshes | src/impl/obj_loader.cpp:64-152 | the meshes the loader emits: those of each shape, concatenated in shape order |
| ObjModel.ShapePositions | src/impl/obj_loader.cpp:75-150 | the positions of the vertices one shape emits, group by group in map order; these are the positions the box fold sees |
| ObjModel.AllPositions | src/impl/obj_loader.cpp:64-152 | the positions of every vertex the loader emits, shape by shape |
| ObjModel.GroupMeshIs | src/impl/obj_loader.cpp:132-148 | a group with no vertices emits no mesh. Otherwise it emits exactly one mesh over its vertex and index buffers, with its key as material index and the name rule |
| ObjModel.ShapeStep | src/impl/obj_loader.cpp:75-149 | the next group in map order adds exactly its mesh and its positions |
| ObjModel.AllStep | src/impl/obj_loader.cpp:64-150 | the next shape adds exactly its meshes and its positions |
| ObjModel.ShapeMeshesEmitted | src/impl/obj_loader.cpp:132-148 | every mesh a shape emits holds a non-empty vertex list, has index list 0..n−1, has a non-negative material index and follows the name rule |
| ObjModel.AllMeshesEmitted | src/impl/obj_loader.cpp:63-150 | every mesh the loader emits satisfies those properties |
| ObjModel.LastSeparator | src/impl/obj_loader.cpp:27 | it finds the last '/' or '\\' of the path, or reports that there is none |
| ObjModel.BasePath | src/impl/obj_loader.cpp:27-28 | the base path is a prefix of the file path that is empty or ends in a separator, and no separator follows it |
| ObjModel.ReplaceBackslashes | src/impl/obj_loader.cpp:173 | the rewrite turns every '\\' into '/', keeps every other character and leaves no backslash |
| ObjModel.ReplaceBackslashesProperties | src/impl/obj_loader.cpp:173 | the rewrite is idempotent and applies piecewise to a concatenation |
| ObjModel.TexturePath | src/impl/obj_loader.cpp:170-173 | the texture path is the rewritten base path followed by the rewritten texture name, with no backslash left |
| ObjModel.WithTexture | src/impl/obj_loader.cpp:169-184 | one material after the texture pass: a material with a texture flag and a path gets the texture built from the rewritten path, or loses the flag when that texture cannot be built; any other material is unchanged |
| ObjModel.Textured | src/impl/obj_loader.cpp:168-185 | the texture pass over the list: the same number of materials, material i becoming `WithTexture` of material i |
| ObjModel.WithTextureFlag | src/impl/obj_loader.cpp:169-184 | the texture pass only ever clears the flag. It clears it iff the material asked for a named texture whose construction fails. A kept flag comes with the texture built from the rewritten path. Nothing else changes |
| ObjModel.TexturedKeepsNames | src/impl/obj_loader.cpp:168-186 | the texture pass keeps every material's name |
| ObjLoading.GroupFaces | src/impl/obj_loader.cpp:66-72 | the grouping map has one entry per group key, and each entry lists that group's faces in order |
| ObjLoading.GroupFacesStep | src/impl/obj_loader.cpp:69-71 | appending face f to its key's list keeps the map equal to the grouping of faces 0..f |
| ObjLoading.IndexOffset | src/impl/obj_loader.cpp:83-86 | the loop's index offset is the sum of the vertex counts of all earlier faces |
| ObjLoading.FlattenGroup | src/impl/obj_loader.cpp:79-130 | the group loop emits the group's vertices face after face, with index list 0..n−1 |
| ObjLoading.ObjLoader.constructor | src/impl/obj_loader.hpp:52-56 | a new loader has no meshes and no materials, and its box is the empty box |
| ObjLoading.ObjLoader.GetCenter | src/impl/obj_loader.hpp:48 | the centre is equidistant from the two corners and lies inside a non-empty box |
| ObjLoading.ObjLoader.GetRadiusSquared | src/impl/obj_loader.cpp:196-199 | four times the squared radius is the squared diagonal, and it equals the squared centre-to-corner distance |
| ObjLoading.ObjLoader.CalculateBounds | src/impl/obj_loader.cpp:189-194 | the box becomes the fold of the vertices' positions into the old box; nothing else changes |
| ObjLoading.ObjLoader.LoadTextures | src/impl/obj_loader.cpp:161-187 | each material becomes its texture-pass result; nothing else changes |
| ObjLoading.ObjLoader.LoadMaterials | src/impl/obj_loader.cpp:34-57 | the material list becomes the MTL's materials, or [default] |
| ObjLoading.ObjLoader.EmitGroup | src/impl/obj_loader.cpp:79-148 | one group appends its mesh, if it has vertices, and folds its positions into the box |
| ObjLoading.ObjLoader.ProcessShape | src/impl/obj_loader.cpp:64-149 | one shape appends its groups' meshes in map order and folds their positions |
| ObjLoading.ObjLoader.ProcessShapes | src/impl/obj_loader.cpp:63-150 | all shapes in turn append their meshes and fold their positions |
| ObjLoading.ObjLoader.Load | src/impl/obj_loader.cpp:9-159 | it returns true iff parsing succeeded, and a failed parse changes nothing. On success: the base path is the file's directory, the materials are the MTL's or [default] after the texture pass, the meshes are all shapes' meshes, and the box has every loaded position folded in |
| Rsm.DisplayModeRoundTrip | src/impl/rsm_main.cpp:412-421 | the seven modes and the seven displayable textures correspond one to one. Every other mode, negatives included, shows the output |
| Rsm.ModeOf | src/impl/rsm_main.cpp:481-483 | every displayable texture has a combo entry in 0..6 |
| Rsm.SourceForMode | src/impl/rsm_main.cpp:412-421 | the texture the display switch binds for a mode: modes 1..6 the six debug textures in order, every other mode the shaded output |
| Rsm.DrawCallForSpec | src/impl/rsm_main.cpp:289-303 | a mesh gets material uniforms iff 0 ≤ materialIndex < material count, and they are that material's diffuse colour and texture flag. Its diffuse texture is bound iff the pass binds textures, the index is in range, the flag is set and the texture exists |
| Rsm.DrawCallFor | src/impl/rsm_main.cpp:289-303 | one mesh's draw in a geometry pass: its mesh object, the material uniforms when the material index is in range, and the diffuse texture when the pass binds textures, the flag is set and the texture exists |
| Rsm.LoadedMeshesDrawable | src/impl/rsm_main.cpp:302 | every mesh the loader emits has a mesh object, so drawing it never dereferences null |
| Rsm.VplSample | src/impl/rsm_main.cpp:218-223 | a sample's z is ξ1² and its w is 0 |
| Rsm.VplWeightIsSquaredRadius | src/impl/rsm_main.cpp:216-223 | with a true sine and cosine, a sample's z is the squared length of its (x, y) offset |
| Rsm.Resized | src/impl/rsm_main.cpp:209 | `resize` to n: exactly n entries, the first ones kept from the old table |
| Rsm.RsmApp.TargetsDistinct | src/impl/rsm_main.cpp:155-196 | under the target invariant the ten render targets are ten distinct, already-created textures |
| Rsm.RsmApp.constructor | src/impl/rsm_main.cpp:93-127 | after initialisation the state is valid: stored size = framebuffer size, all targets at their sizes and formats, 512 samples. The settings have their start-up values, and the samples are built from the draws. After a successful parse the scene's materials are the textured material list, its meshes are `AllMeshes` of the parsed shapes, and its box is the fold of all their positions into the empty box (FLT_MAX, −FLT_MAX). After a failed parse the scene has no meshes and the empty box |
| Rsm.RsmApp.LoadScene | src/impl/rsm_main.cpp:114-121 | whether or not the scene loads, every scene mesh can be drawn; a failed load leaves the scene empty. After a successful load the materials are the textured material list and the meshes are `AllMeshes` of the parsed shapes in the given map orders. The box is the fold of all emitted positions into the box held before; a failed load leaves the box as it was |
| Rsm.RsmApp.CreateFramebuffers | src/impl/rsm_main.cpp:155-196 | it creates G-buffer albedo/normal (RGB16F), position (RGB32F) and depth (D24S8) at the stored size, the same four at 2048 × 2048 for the shadow map, and output RGBA16F + D24S8 at the stored size. Each framebuffer gets its colours in order plus its depth. All ten targets are new |
| Rsm.RsmApp.RecreateGBuffer | src/impl/rsm_main.cpp:487-527 | the six camera-resolution targets are recreated at the current size and the stored size becomes the current size. The shadow-map targets are not touched |
| Rsm.RsmApp.GenerateVplSamples | src/impl/rsm_main.cpp:208-225 | the table has exactly 512 entries, entry i built from draw i |
| Rsm.RsmApp.GBufferPass | src/impl/rsm_main.cpp:276-306 | it renders into the G-buffer at the stored size and draws every mesh once, in list order, each as `DrawCallFor` with textures |
| Rsm.RsmApp.RsmBufferPass | src/impl/rsm_main.cpp:308-337 | it renders into the shadow map at 2048 × 2048 and draws every mesh once, in list order, with uniforms under the same guard and never a texture |
| Rsm.RsmApp.ShadingPass | src/impl/rsm_main.cpp:339-400 | it renders into the output at the stored size. Units 0–6 hold the G-buffer colours, the shadow-map colours and the shadow-map depth. The VPL count, maximum sample radius, indirect strength and RSM switch come from the settings. All 512 samples are uploaded whatever the VPL count, and no sampled texture is attached to the output framebuffer |
| Rsm.RsmApp.DisplayTarget | src/impl/rsm_main.cpp:402-421 | the displayed texture is the one the mode's source names, and the output for any mode outside 0..6 |
| Rsm.RsmApp.Update | src/impl/rsm_main.cpp:529-564 | it recreates iff the width or the height differs from the stored one, 0 included. Afterwards the current and stored sizes equal the new size. Without a change no target changes; with one the six camera targets are new. The shadow map never changes. The G-buffer pass then renders at the new size and the shadow-map pass at 2048 × 2048, each drawing every scene mesh as `DrawCallFor`; the shading inputs and the displayed texture are as their functions state, and the display pass covers the new size |

## Left out

- All OpenGL, GLFW and ImGui calls are left out: binds, clears, uniform setters, shader creation, the screen triangle and the settings panel. The model records only which framebuffer, viewport and textures each pass selects, and the shading pass's scalar uniforms and VPL samples. The camera and light uniforms (matrices, light direction and colour) are left out with the maths below. The panel's effect on the settings is covered in that the passes and the display switch are proved for any setting value.
- Matrix and camera maths, the light direction and the `aspect` division are left out. They are floating point over a foreign library.
- Float rounding is not modelled: coordinates are reals. The VPL random draws, and the sine and cosine of the angle, are inputs.
- The OBJ parser, texture decoding and mesh upload are left out. The parser's result is an input, and texture construction succeeds iff its path is in an input set.
- Index buffers are unbounded integers. The 32-bit casts of vertex counts and indices are not modelled; no OBJ group reaches 2³² vertices.
- `ObjLoading.ObjLoader.Load`: it requires each parsed shape to be well formed (one count and one material id per face, corner counts adding up, position indices in range). It also requires each map order to list every group key exactly once. The program reads out of bounds otherwise, which is undefined behaviour and not modelled.
- `ObjLoading.ObjLoader.Load`: the bounding box is not reset by a load, as in the program. The model states the box as a fold of the loaded positions into the box held before the load.
- `Rsm.RsmApp.constructor`: it stands for the program's constructor followed by `init`. Before `init` the targets do not exist; the model starts at the state after `init`.
- The shadow-map fields that are never created (src/impl/rsm_main.cpp:85-87) are left out. So are `ObjLoader::draw` and the material uniform-buffer code in src/impl/material.cpp and src/impl/material.hpp, which are GL binding only.
- `Rsm.RsmApp.GBufferPass` and `Rsm.RsmApp.RsmBufferPass`: each requires every scene mesh to hold a mesh object. The program dereferences it unconditionally, and `Rsm.LoadedMeshesDrawable` shows that the loader always provides one.

## Behaviour worth noting

- **No zero-size guard.** A framebuffer size of 0 × 0, as with a minimised window, counts as a change like any other. The targets are recreated at that size. `Rsm.RsmApp.Update` states this for every integer size.
- **No fallback material in the geometry passes.** A mesh whose material index is outside the material list is drawn with whatever uniforms were set last. The passes do not fall back to material 0 or to the default material. `Rsm.DrawCallForSpec` records `None` uniforms for such a mesh.
- **A negative material id goes to material 0.** Faces with id −1 are grouped under key 0 (src/impl/obj_loader.cpp:69-70). When the MTL has materials, material 0 is the first MTL material, not the "default" material; the default is used only when the MTL has none. `ObjModel.GroupKey` follows the code.
