/**
 * What the OBJ loader reads and what it produces, and the pure rules that decide
 * its output: materials from the MTL records, faces grouped by material, the
 * per-face index offsets, the vertices emitted per group, the meshes emitted per
 * shape, the texture base path and the texture path rewrite.
 *
 * The parse itself is not modelled: a parsed file is an input value, shaped as the
 * OBJ parser hands it over (flat attribute arrays, per-shape index lists with one
 * vertex count and one material id per face).
 */
module ObjModel {
  import opened Options
  import opened Geometry

  // ---------------------------------------------------------------- parser output

  /** One corner of a face: indices into the position, normal and texcoord arrays (-1 when absent). */
  datatype Index = Index(vertexIndex: int, normalIndex: int, texcoordIndex: int)

  /** The faces of one shape: their corners, their vertex counts and their material ids. */
  datatype ShapeMesh = ShapeMesh(indices: seq<Index>, numFaceVertices: seq<nat>, materialIds: seq<int>)

  /** Flat attribute arrays: three reals per position and per normal, two per texcoord. */
  datatype Attrib = Attrib(vertices: seq<real>, normals: seq<real>, texcoords: seq<real>)

  /** One MTL material record. */
  datatype MtlMaterial = MtlMaterial(name: string, diffuse: Vec3, specular: Vec3, shininess: real, diffuseTexname: string)

  datatype ParsedObj = ParsedObj(attrib: Attrib, shapes: seq<ShapeMesh>, materials: seq<MtlMaterial>)

  // ---------------------------------------------------------------- loader output

  /** A texture object, identified by the path it was constructed from. */
  datatype Texture = Texture(path: string)

  datatype ObjMaterial = ObjMaterial(
    name: string,
    diffuseColor: Vec3,
    specularColor: Vec3,
    shininess: real,
    diffuseTexturePath: string,
    diffuseTexture: Option<Texture>,
    hasTexture: bool)

  /** The vertex and index buffers handed to the mesh wrapper. */
  datatype MeshData = MeshData(vertices: seq<Vertex>, indices: seq<int>)

  datatype ObjMesh = ObjMesh(mesh: Option<MeshData>, materialName: string, materialIndex: int)

  /** A freshly declared mesh record: no mesh, no material name, material index -1. */
  function NewObjMesh(): (m: ObjMesh)
    ensures m.mesh == None && m.materialName == "" && m.materialIndex == -1
  {
    ObjMesh(None, "", -1)
  }

  /** A freshly declared material: white diffuse, black specular, shininess 1, no texture. */
  function NewObjMaterial(): (m: ObjMaterial)
    ensures m.diffuseColor == Vec3(1.0, 1.0, 1.0) && m.specularColor == Vec3(0.0, 0.0, 0.0)
    ensures m.shininess == 1.0 && !m.hasTexture && m.diffuseTexture == None
    ensures m.name == "" && m.diffuseTexturePath == ""
  {
    ObjMaterial("", Vec3(1.0, 1.0, 1.0), Vec3(0.0, 0.0, 0.0), 1.0, "", None, false)
  }

  // ---------------------------------------------------------------- materials

  /** The material built from one MTL record; it asks for a texture iff the record names one. */
  function FromMtl(m: MtlMaterial): (r: ObjMaterial)
    ensures r.hasTexture <==> m.diffuseTexname != ""
    ensures r.diffuseTexturePath == m.diffuseTexname
    ensures r.name == m.name && r.diffuseColor == m.diffuse && r.specularColor == m.specular
    ensures r.shininess == m.shininess && r.diffuseTexture == None
  {
    var base := NewObjMaterial().(name := m.name, diffuseColor := m.diffuse,
                                  specularColor := m.specular, shininess := m.shininess);
    if m.diffuseTexname != "" then base.(diffuseTexturePath := m.diffuseTexname, hasTexture := true)
    else base
  }

  /** The material added when the MTL supplies none. */
  function DefaultMaterial(): (m: ObjMaterial)
    ensures m.name == "default" && m.diffuseColor == Vec3(0.8, 0.8, 0.8)
    ensures !m.hasTexture && m.specularColor == NewObjMaterial().specularColor
  {
    NewObjMaterial().(name := "default", diffuseColor := Vec3(0.8, 0.8, 0.8))
  }

  /** The materials of the MTL records, in order. */
  function FromMtls(mtls: seq<MtlMaterial>): (r: seq<ObjMaterial>)
    ensures |r| == |mtls|
    ensures forall i :: 0 <= i < |mtls| ==> r[i] == FromMtl(mtls[i])
    decreases |mtls|
  {
    if mtls == [] then [] else FromMtls(mtls[..|mtls| - 1]) + [FromMtl(mtls[|mtls| - 1])]
  }

  /** The material list after loading: the MTL's materials, or the single default. */
  function MaterialList(mtls: seq<MtlMaterial>): seq<ObjMaterial> {
    var ms := FromMtls(mtls);
    if ms == [] then [DefaultMaterial()] else ms
  }

  /**
   * The material list is never empty; it holds exactly the single "default"
   * material with diffuse 0.8 when the MTL has none, and the MTL's materials in
   * order otherwise.
   */
  lemma MaterialListShape(mtls: seq<MtlMaterial>)
    ensures |MaterialList(mtls)| >= 1
    ensures mtls == [] ==> MaterialList(mtls) == [DefaultMaterial()]
    ensures mtls != [] ==> |MaterialList(mtls)| == |mtls|
    ensures mtls != [] ==> forall i :: 0 <= i < |mtls| ==> MaterialList(mtls)[i] == FromMtl(mtls[i])
  {
  }

  // ---------------------------------------------------------------- face grouping

  /** The group a face joins: its material id, with negative ids sent to 0. */
  function GroupKey(materialId: int): (k: int)
    ensures k >= 0
    ensures materialId >= 0 ==> k == materialId
    ensures materialId < 0 ==> k == 0
  {
    if materialId < 0 then 0 else materialId
  }

  predicate StrictlyIncreasing(s: seq<nat>) {
    forall i, j :: 0 <= i < j < |s| ==> s[i] < s[j]
  }

  /** The faces, in order, whose material id puts them in the group of `key`. */
  function FacesIn(ids: seq<int>, key: int): (r: seq<nat>)
    ensures forall i :: 0 <= i < |r| ==> r[i] < |ids|
    ensures StrictlyIncreasing(r)
    decreases |ids|
  {
    if ids == [] then []
    else
      var init := FacesIn(ids[..|ids| - 1], key);
      if GroupKey(ids[|ids| - 1]) == key then init + [|ids| - 1] else init
  }

  /** A face is in the group of `key` iff its material id maps to `key`: each face is in exactly one group. */
  lemma {:induction false} FacesInMembership(ids: seq<int>, key: int, f: int)
    ensures f in FacesIn(ids, key) <==> 0 <= f < |ids| && GroupKey(ids[f]) == key
    decreases |ids|
  {
    if ids != [] {
      var init := ids[..|ids| - 1];
      FacesInMembership(init, key, f);
      if 0 <= f < |init| {
        assert init[f] == ids[f];
      }
    }
  }

  /** The keys of the groups the faces fall into. */
  function GroupKeys(ids: seq<int>): (keys: set<int>)
    ensures forall k :: k in keys ==> k >= 0
    ensures forall f :: 0 <= f < |ids| ==> GroupKey(ids[f]) in keys
  {
    set f | 0 <= f < |ids| :: GroupKey(ids[f])
  }

  /** A key has a non-empty group iff it is one of the group keys. */
  lemma GroupNonEmptyIffKey(ids: seq<int>, key: int)
    ensures FacesIn(ids, key) != [] <==> key in GroupKeys(ids)
  {
    if key in GroupKeys(ids) {
      var f :| 0 <= f < |ids| && GroupKey(ids[f]) == key;
      FacesInMembership(ids, key, f);
    }
    if FacesIn(ids, key) != [] {
      FacesInMembership(ids, key, FacesIn(ids, key)[0]);
    }
  }

  /**
   * An iteration order of the grouping map: every group key exactly once. The
   * order itself is left to the hash map and is an input of the model.
   */
  predicate IsKeyOrder(order: seq<int>, ids: seq<int>) {
    && (forall i, j :: 0 <= i < j < |order| ==> order[i] != order[j])
    && (forall i :: 0 <= i < |order| ==> order[i] in GroupKeys(ids))
    && (forall k :: k in GroupKeys(ids) ==> k in order)
  }

  // ---------------------------------------------------------------- offsets

  function Sum(s: seq<nat>): nat
    decreases |s|
  {
    if s == [] then 0 else Sum(s[..|s| - 1]) + s[|s| - 1]
  }

  /** The offset of face f in the shape's corner list: the vertex counts of all earlier faces. */
  function Offset(numFaceVertices: seq<nat>, f: nat): nat
    requires f <= |numFaceVertices|
  {
    Sum(numFaceVertices[..f])
  }

  /** Face f's corners lie within the shape's corner list: offset(f) + size(f) <= total. */
  lemma {:induction false} OffsetBound(s: seq<nat>, f: nat)
    requires f < |s|
    ensures Offset(s, f + 1) == Offset(s, f) + s[f]
    ensures Offset(s, f) + s[f] <= Sum(s)
    decreases |s|
  {
    assert s[..f + 1][..f] == s[..f];
    if f + 1 < |s| {
      OffsetBound(s[..|s| - 1], f);
      assert s[..|s| - 1][..f] == s[..f];
      assert s[..|s| - 1][..f + 1] == s[..f + 1];
    } else {
      assert s[..f + 1] == s;
    }
  }

  // ---------------------------------------------------------------- vertices

  /** What the loader relies on in a parsed shape: one count and one id per face, corners that add up, positions that exist. */
  predicate WellFormedShape(attrib: Attrib, shape: ShapeMesh) {
    && |shape.materialIds| == |shape.numFaceVertices|
    && Sum(shape.numFaceVertices) == |shape.indices|
    && forall k :: 0 <= k < |shape.indices| ==>
         0 <= shape.indices[k].vertexIndex && 3 * shape.indices[k].vertexIndex + 2 < |attrib.vertices|
  }

  predicate HasNormal(attrib: Attrib, ni: int) { ni >= 0 && 3 * ni + 2 < |attrib.normals| }
  predicate HasTexcoord(attrib: Attrib, ti: int) { ti >= 0 && 2 * ti + 1 < |attrib.texcoords| }

  const Up: Vec3 := Vec3(0.0, 1.0, 0.0)

  /** The vertex the loader builds for one face corner. */
  function MakeVertex(attrib: Attrib, idx: Index): Vertex
    requires 0 <= idx.vertexIndex && 3 * idx.vertexIndex + 2 < |attrib.vertices|
  {
    var vi := idx.vertexIndex;
    var ni := idx.normalIndex;
    var ti := idx.texcoordIndex;
    var position := Vec3(attrib.vertices[3 * vi], attrib.vertices[3 * vi + 1], attrib.vertices[3 * vi + 2]);
    var normal :=
      if HasNormal(attrib, ni) then Vec3(attrib.normals[3 * ni], attrib.normals[3 * ni + 1], attrib.normals[3 * ni + 2])
      else Up;
    var uv :=
      if HasTexcoord(attrib, ti) then Vec2(attrib.texcoords[2 * ti], 1.0 - attrib.texcoords[2 * ti + 1])
      else Vec2(0.0, 0.0);
    Vertex(position, normal, Vec4(1.0, 0.0, 0.0, 1.0), uv, Vec2(0.0, 0.0), Vec4(1.0, 1.0, 1.0, 1.0))
  }

  /**
   * A corner's vertex takes the referenced position; the referenced normal when the
   * normal index is in range and the up vector otherwise; the referenced texcoord
   * with v flipped to 1 - v when the texcoord index is in range and (0, 0)
   * otherwise; and the fixed tangent (1, 0, 0, 1), second UV set (0, 0) and white.
   */
  lemma MakeVertexSpec(attrib: Attrib, idx: Index)
    requires 0 <= idx.vertexIndex && 3 * idx.vertexIndex + 2 < |attrib.vertices|
    ensures var r := MakeVertex(attrib, idx); var vi := idx.vertexIndex;
      r.position == Vec3(attrib.vertices[3 * vi], attrib.vertices[3 * vi + 1], attrib.vertices[3 * vi + 2])
    ensures var r := MakeVertex(attrib, idx);
      HasNormal(attrib, idx.normalIndex) ==> var ni := idx.normalIndex;
      r.normal == Vec3(attrib.normals[3 * ni], attrib.normals[3 * ni + 1], attrib.normals[3 * ni + 2])
    ensures !HasNormal(attrib, idx.normalIndex) ==> MakeVertex(attrib, idx).normal == Up
    ensures var r := MakeVertex(attrib, idx);
      HasTexcoord(attrib, idx.texcoordIndex) ==> var ti := idx.texcoordIndex;
      r.uv0.x == attrib.texcoords[2 * ti] && r.uv0.y + attrib.texcoords[2 * ti + 1] == 1.0
    ensures !HasTexcoord(attrib, idx.texcoordIndex) ==> MakeVertex(attrib, idx).uv0 == Vec2(0.0, 0.0)
    ensures var r := MakeVertex(attrib, idx);
      r.tangent == Vec4(1.0, 0.0, 0.0, 1.0) && r.uv1 == Vec2(0.0, 0.0) && r.color == Vec4(1.0, 1.0, 1.0, 1.0)
  {
  }

  /** The vertices of face f, one per corner, in corner order. */
  function FaceVertices(attrib: Attrib, shape: ShapeMesh, f: nat): (r: seq<Vertex>)
    requires WellFormedShape(attrib, shape) && f < |shape.numFaceVertices|
    ensures |r| == shape.numFaceVertices[f]
  {
    OffsetBound(shape.numFaceVertices, f);
    var off := Offset(shape.numFaceVertices, f);
    seq(shape.numFaceVertices[f], v requires 0 <= v < shape.numFaceVertices[f] =>
      MakeVertex(attrib, shape.indices[off + v]))
  }

  /** Corner v of face f is built from the corner at offset(f) + v. */
  lemma FaceVertexAt(attrib: Attrib, shape: ShapeMesh, f: nat, v: nat)
    requires WellFormedShape(attrib, shape) && f < |shape.numFaceVertices| && v < shape.numFaceVertices[f]
    ensures Offset(shape.numFaceVertices, f) + v < |shape.indices|
    ensures FaceVertices(attrib, shape, f)[v] == MakeVertex(attrib, shape.indices[Offset(shape.numFaceVertices, f) + v])
  {
    OffsetBound(shape.numFaceVertices, f);
  }

  predicate FacesOf(shape: ShapeMesh, faces: seq<nat>) {
    forall i :: 0 <= i < |faces| ==> faces[i] < |shape.numFaceVertices|
  }

  /** The vertex counts of the given faces. */
  function SizesOf(shape: ShapeMesh, faces: seq<nat>): (r: seq<nat>)
    requires FacesOf(shape, faces)
    ensures |r| == |faces|
    ensures forall i :: 0 <= i < |faces| ==> r[i] == shape.numFaceVertices[faces[i]]
  {
    seq(|faces|, i requires 0 <= i < |faces| => shape.numFaceVertices[faces[i]])
  }

  /** The vertices one material group emits: each face's vertices, face after face. */
  function GroupVertices(attrib: Attrib, shape: ShapeMesh, faces: seq<nat>): (r: seq<Vertex>)
    requires WellFormedShape(attrib, shape) && FacesOf(shape, faces)
    ensures |r| == Sum(SizesOf(shape, faces))
    decreases |faces|
  {
    if faces == [] then []
    else
      var init := faces[..|faces| - 1];
      assert SizesOf(shape, faces)[..|faces| - 1] == SizesOf(shape, init);
      GroupVertices(attrib, shape, init) + FaceVertices(attrib, shape, faces[|faces| - 1])
  }

  /** 0, 1, ..., n - 1: the index buffer of a group, one fresh index per vertex. */
  function Iota(n: nat): (r: seq<int>)
    ensures |r| == n
    ensures forall k :: 0 <= k < n ==> r[k] == k
  {
    seq(n, k => k)
  }

  function Positions(vs: seq<Vertex>): (r: seq<Vec3>)
    ensures |r| == |vs|
    ensures forall i :: 0 <= i < |vs| ==> r[i] == vs[i].position
  {
    seq(|vs|, i requires 0 <= i < |vs| => vs[i].position)
  }

  lemma PositionsAppend(a: seq<Vertex>, b: seq<Vertex>)
    ensures Positions(a + b) == Positions(a) + Positions(b)
  {
  }

  // ---------------------------------------------------------------- meshes

  /** The name a mesh gets: its material's name when the id is within the material list, else none. */
  function MaterialNameFor(key: int, materials: seq<ObjMaterial>): (name: string)
    ensures 0 <= key < |materials| ==> name == materials[key].name
    ensures !(0 <= key < |materials|) ==> name == ""
  {
    if 0 <= key < |materials| then materials[key].name else ""
  }

  /** The vertices of the group of `key` in a shape. */
  function KeyVertices(attrib: Attrib, shape: ShapeMesh, key: int): seq<Vertex>
    requires WellFormedShape(attrib, shape)
  {
    GroupVertices(attrib, shape, FacesIn(shape.materialIds, key))
  }

  /** The mesh a group emits: one mesh over its vertices if it has any, none otherwise. */
  function GroupMesh(attrib: Attrib, shape: ShapeMesh, key: int, materials: seq<ObjMaterial>): seq<ObjMesh>
    requires WellFormedShape(attrib, shape)
  {
    var vs := KeyVertices(attrib, shape, key);
    if vs == [] then []
    else [ObjMesh(Some(MeshData(vs, Iota(|vs|))), MaterialNameFor(key, materials), key)]
  }

  /** The meshes of one shape, one per non-empty group, in the map's iteration order. */
  function ShapeMeshes(attrib: Attrib, shape: ShapeMesh, order: seq<int>, materials: seq<ObjMaterial>): seq<ObjMesh>
    requires WellFormedShape(attrib, shape)
    decreases |order|
  {
    if order == [] then []
    else ShapeMeshes(attrib, shape, order[..|order| - 1], materials)
         + GroupMesh(attrib, shape, order[|order| - 1], materials)
  }

  /** The positions one shape folds into the bounding box, group by group. */
  function ShapePositions(attrib: Attrib, shape: ShapeMesh, order: seq<int>): seq<Vec3>
    requires WellFormedShape(attrib, shape)
    decreases |order|
  {
    if order == [] then []
    else ShapePositions(attrib, shape, order[..|order| - 1])
         + Positions(KeyVertices(attrib, shape, order[|order| - 1]))
  }

  /** Adding one more group to the iteration order adds that group's mesh and positions. */
  lemma ShapeStep(attrib: Attrib, shape: ShapeMesh, order: seq<int>, j: nat, materials: seq<ObjMaterial>)
    requires WellFormedShape(attrib, shape) && j < |order|
    ensures ShapeMeshes(attrib, shape, order[..j + 1], materials)
      == ShapeMeshes(attrib, shape, order[..j], materials) + GroupMesh(attrib, shape, order[j], materials)
    ensures ShapePositions(attrib, shape, order[..j + 1])
      == ShapePositions(attrib, shape, order[..j]) + Positions(KeyVertices(attrib, shape, order[j]))
  {
    assert order[..j + 1][..j] == order[..j];
  }

  /** The mesh a group emits, in terms of the group's vertex and index buffers. */
  lemma GroupMeshIs(attrib: Attrib, shape: ShapeMesh, key: int, materials: seq<ObjMaterial>,
                    vertices: seq<Vertex>, indices: seq<int>)
    requires WellFormedShape(attrib, shape)
    requires vertices == GroupVertices(attrib, shape, FacesIn(shape.materialIds, key))
    requires indices == Iota(|vertices|)
    ensures KeyVertices(attrib, shape, key) == vertices
    ensures |vertices| == 0 ==> GroupMesh(attrib, shape, key, materials) == []
    ensures |vertices| > 0 ==>
      GroupMesh(attrib, shape, key, materials) ==
      [ObjMesh(Some(MeshData(vertices, indices)), MaterialNameFor(key, materials), key)]
  {
  }

  predicate WellFormedShapes(attrib: Attrib, shapes: seq<ShapeMesh>) {
    forall s :: 0 <= s < |shapes| ==> WellFormedShape(attrib, shapes[s])
  }

  /** The meshes of all shapes, shape after shape. */
  function AllMeshes(attrib: Attrib, shapes: seq<ShapeMesh>, orders: seq<seq<int>>, materials: seq<ObjMaterial>): seq<ObjMesh>
    requires WellFormedShapes(attrib, shapes) && |orders| == |shapes|
    decreases |shapes|
  {
    if shapes == [] then []
    else AllMeshes(attrib, shapes[..|shapes| - 1], orders[..|shapes| - 1], materials)
         + ShapeMeshes(attrib, shapes[|shapes| - 1], orders[|shapes| - 1], materials)
  }

  /** The positions of all shapes, in the order the loader folds them. */
  function AllPositions(attrib: Attrib, shapes: seq<ShapeMesh>, orders: seq<seq<int>>): seq<Vec3>
    requires WellFormedShapes(attrib, shapes) && |orders| == |shapes|
    decreases |shapes|
  {
    if shapes == [] then []
    else AllPositions(attrib, shapes[..|shapes| - 1], orders[..|shapes| - 1])
         + ShapePositions(attrib, shapes[|shapes| - 1], orders[|shapes| - 1])
  }

  /** Adding one more shape adds that shape's meshes and positions. */
  lemma AllStep(attrib: Attrib, shapes: seq<ShapeMesh>, orders: seq<seq<int>>, s: nat, materials: seq<ObjMaterial>)
    requires WellFormedShapes(attrib, shapes) && |orders| == |shapes| && s < |shapes|
    ensures WellFormedShapes(attrib, shapes[..s]) && WellFormedShapes(attrib, shapes[..s + 1])
    ensures AllMeshes(attrib, shapes[..s + 1], orders[..s + 1], materials)
      == AllMeshes(attrib, shapes[..s], orders[..s], materials) + ShapeMeshes(attrib, shapes[s], orders[s], materials)
    ensures AllPositions(attrib, shapes[..s + 1], orders[..s + 1])
      == AllPositions(attrib, shapes[..s], orders[..s]) + ShapePositions(attrib, shapes[s], orders[s])
  {
    assert shapes[..s + 1][..s] == shapes[..s];
    assert orders[..s + 1][..s] == orders[..s];
  }

  /**
   * What every emitted mesh satisfies: it holds a mesh over a non-empty vertex
   * list, its index list is 0, 1, ..., n - 1, its material index is a group key
   * (never negative), and it carries its material's name exactly when that index
   * is within the material list.
   */
  predicate EmittedMesh(m: ObjMesh, materials: seq<ObjMaterial>) {
    && m.mesh.Some?
    && |m.mesh.value.vertices| > 0
    && m.mesh.value.indices == Iota(|m.mesh.value.vertices|)
    && m.materialIndex >= 0
    && m.materialName == MaterialNameFor(m.materialIndex, materials)
  }

  lemma {:induction false} ShapeMeshesEmitted(attrib: Attrib, shape: ShapeMesh, order: seq<int>, materials: seq<ObjMaterial>)
    requires WellFormedShape(attrib, shape)
    requires forall i :: 0 <= i < |order| ==> order[i] >= 0
    ensures forall i :: 0 <= i < |ShapeMeshes(attrib, shape, order, materials)| ==>
      EmittedMesh(ShapeMeshes(attrib, shape, order, materials)[i], materials)
    decreases |order|
  {
    if order != [] {
      ShapeMeshesEmitted(attrib, shape, order[..|order| - 1], materials);
    }
  }

  /** Every mesh the loader emits satisfies EmittedMesh. */
  lemma {:induction false} AllMeshesEmitted(attrib: Attrib, shapes: seq<ShapeMesh>, orders: seq<seq<int>>, materials: seq<ObjMaterial>)
    requires WellFormedShapes(attrib, shapes) && |orders| == |shapes|
    requires forall s :: 0 <= s < |shapes| ==> IsKeyOrder(orders[s], shapes[s].materialIds)
    ensures forall i :: 0 <= i < |AllMeshes(attrib, shapes, orders, materials)| ==>
      EmittedMesh(AllMeshes(attrib, shapes, orders, materials)[i], materials)
    decreases |shapes|
  {
    if shapes != [] {
      var n := |shapes| - 1;
      AllMeshesEmitted(attrib, shapes[..n], orders[..n], materials);
      assert forall i :: 0 <= i < |orders[n]| ==> orders[n][i] >= 0;
      ShapeMeshesEmitted(attrib, shapes[n], orders[n], materials);
    }
  }

  /** A group's vertex count is the sum of the sizes of its faces. */
  lemma GroupSize(attrib: Attrib, shape: ShapeMesh, key: int)
    requires WellFormedShape(attrib, shape)
    ensures |KeyVertices(attrib, shape, key)| == Sum(SizesOf(shape, FacesIn(shape.materialIds, key)))
  {
  }

  // ---------------------------------------------------------------- texture paths

  predicate IsSeparator(c: char) { c == '/' || c == '\\' }

  /** The position of the last '/' or '\\' in s, if any. */
  function LastSeparator(s: string): (r: Option<nat>)
    ensures r.Some? ==> r.value < |s| && IsSeparator(s[r.value])
    ensures r.Some? ==> forall i :: r.value < i < |s| ==> !IsSeparator(s[i])
    ensures r.None? ==> forall i :: 0 <= i < |s| ==> !IsSeparator(s[i])
    decreases |s|
  {
    if s == [] then None
    else if IsSeparator(s[|s| - 1]) then Some(|s| - 1)
    else
      var r := LastSeparator(s[..|s| - 1]);
      assert forall i :: 0 <= i < |s| - 1 ==> s[..|s| - 1][i] == s[i];
      r
  }

  /**
   * The directory textures are looked up in: the path up to and including its last
   * separator, or empty when it has none. The result is a prefix of the path, ends
   * in a separator unless empty, and the rest of the path holds no separator.
   */
  function BasePath(filepath: string): (base: string)
    ensures base <= filepath
    ensures base == [] || IsSeparator(base[|base| - 1])
    ensures forall i :: |base| <= i < |filepath| ==> !IsSeparator(filepath[i])
  {
    match LastSeparator(filepath)
    case None => ""
    case Some(i) => filepath[..i + 1]
  }

  /** Those three properties single out the base path: any prefix having them is it. */
  lemma BasePathUnique(filepath: string, base: string)
    requires base <= filepath
    requires base == [] || IsSeparator(base[|base| - 1])
    requires forall i :: |base| <= i < |filepath| ==> !IsSeparator(filepath[i])
    ensures base == BasePath(filepath)
  {
  }

  /** s with every backslash replaced by a slash. */
  function ReplaceBackslashes(s: string): (r: string)
    ensures |r| == |s|
    ensures forall i :: 0 <= i < |s| ==> r[i] == if s[i] == '\\' then '/' else s[i]
    ensures forall i :: 0 <= i < |r| ==> r[i] != '\\'
  {
    seq(|s|, i requires 0 <= i < |s| => if s[i] == '\\' then '/' else s[i])
  }

  /** The rewrite is idempotent and works piecewise on a concatenation. */
  lemma ReplaceBackslashesProperties(a: string, b: string)
    ensures ReplaceBackslashes(ReplaceBackslashes(a)) == ReplaceBackslashes(a)
    ensures ReplaceBackslashes(a + b) == ReplaceBackslashes(a) + ReplaceBackslashes(b)
  {
  }

  /** The path a material's texture is loaded from. */
  function TexturePath(basePath: string, name: string): (p: string)
    ensures |p| == |basePath| + |name|
    ensures p[..|basePath|] == ReplaceBackslashes(basePath)
    ensures p[|basePath|..] == ReplaceBackslashes(name)
    ensures forall i :: 0 <= i < |p| ==> p[i] != '\\'
  {
    ReplaceBackslashes(basePath + name)
  }

  /**
   * One material after the texture pass. Texture construction is a foreign call;
   * it succeeds exactly when the path is in `available`. A material that asks for a
   * texture and names one gets the texture, or loses its texture flag on failure.
   */
  function WithTexture(m: ObjMaterial, basePath: string, available: set<string>): ObjMaterial {
    if m.hasTexture && m.diffuseTexturePath != "" then
      var path := TexturePath(basePath, m.diffuseTexturePath);
      if path in available then m.(diffuseTexture := Some(Texture(path)))
      else m.(hasTexture := false)
    else m
  }

  /**
   * The texture pass only ever clears the flag, and clears it exactly when the
   * material asked for a named texture that failed to load; a material keeps its
   * flag with its texture attached otherwise, and nothing but the flag and the
   * texture changes.
   */
  lemma WithTextureFlag(m: ObjMaterial, basePath: string, available: set<string>)
    ensures var r := WithTexture(m, basePath, available);
      && (r.hasTexture ==> m.hasTexture)
      && (m.hasTexture && !r.hasTexture <==>
            m.hasTexture && m.diffuseTexturePath != "" && TexturePath(basePath, m.diffuseTexturePath) !in available)
      && (r.hasTexture && m.diffuseTexturePath != "" ==>
            r.diffuseTexture == Some(Texture(TexturePath(basePath, m.diffuseTexturePath))))
      && r.(hasTexture := m.hasTexture, diffuseTexture := m.diffuseTexture) == m
  {
  }

  /** Every material after the texture pass, in order. */
  function Textured(ms: seq<ObjMaterial>, basePath: string, available: set<string>): (r: seq<ObjMaterial>)
    ensures |r| == |ms|
    ensures forall i :: 0 <= i < |ms| ==> r[i] == WithTexture(ms[i], basePath, available)
  {
    seq(|ms|, i requires 0 <= i < |ms| => WithTexture(ms[i], basePath, available))
  }

  /** The texture pass keeps every material's name, so mesh names do not depend on it. */
  lemma TexturedKeepsNames(ms: seq<ObjMaterial>, basePath: string, available: set<string>, key: int)
    ensures MaterialNameFor(key, Textured(ms, basePath, available)) == MaterialNameFor(key, ms)
  {
  }
}
