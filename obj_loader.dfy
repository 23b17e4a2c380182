/**
 * The OBJ loader as the program runs it: an object holding the meshes, the
 * materials, the running bounding box and the texture base path, whose `Load`
 * rebuilds the materials and meshes from a parsed file step by step.
 *
 * Inputs the program gets from outside are parameters: the parser's result (None
 * when parsing fails), the iteration order of each shape's grouping map, and the
 * set of paths a texture can be constructed from.
 */
module ObjLoading {
  import opened Options
  import opened Geometry
  import opened Bounds
  import opened ObjModel

  lemma AppendAssoc<T>(a: seq<T>, b: seq<T>, c: seq<T>)
    ensures (a + b) + c == a + (b + c)
  {
  }

  lemma AppendNext<T>(before: seq<T>, s: seq<T>, v: nat)
    requires v < |s|
    ensures before + s[..v] + [s[v]] == before + s[..v + 1]
  {
    assert s[..v + 1] == s[..v] + [s[v]];
  }

  lemma IotaNext(n: nat)
    ensures Iota(n) + [n] == Iota(n + 1)
  {
  }

  lemma FacesInStep(ids: seq<int>, f: nat, key: int)
    requires f < |ids|
    ensures FacesIn(ids[..f + 1], key) ==
      FacesIn(ids[..f], key) + (if GroupKey(ids[f]) == key then [f] else [])
  {
    assert ids[..f + 1][..f] == ids[..f];
  }

  lemma GroupKeysStep(ids: seq<int>, f: nat)
    requires f < |ids|
    ensures GroupKeys(ids[..f + 1]) == GroupKeys(ids[..f]) + {GroupKey(ids[f])}
  {
    var a, b := ids[..f + 1], ids[..f];
    forall k | k in GroupKeys(a) ensures k in GroupKeys(b) + {GroupKey(ids[f])} {
      var g :| 0 <= g < |a| && GroupKey(a[g]) == k;
      if g < f { assert a[g] == b[g]; }
    }
    forall k | k in GroupKeys(b) ensures k in GroupKeys(a) {
      var g :| 0 <= g < |b| && GroupKey(b[g]) == k;
      assert a[g] == b[g];
    }
    assert a[f] == ids[f];
  }

  /** Adding face f to the group of its key keeps the map equal to the grouping of the faces so far. */
  lemma GroupFacesStep(ids: seq<int>, f: nat, groups: map<int, seq<nat>>, key: int)
    requires f < |ids| && key == GroupKey(ids[f])
    requires groups.Keys == GroupKeys(ids[..f])
    requires forall k :: k in groups ==> groups[k] == FacesIn(ids[..f], k)
    ensures var g := groups[key := (if key in groups then groups[key] else []) + [f]];
      && g.Keys == GroupKeys(ids[..f + 1])
      && forall k :: k in g ==> g[k] == FacesIn(ids[..f + 1], k)
  {
    if key !in groups {
      GroupNonEmptyIffKey(ids[..f], key);
    }
    var g := groups[key := (if key in groups then groups[key] else []) + [f]];
    forall k | k in g ensures g[k] == FacesIn(ids[..f + 1], k) {
      FacesInStep(ids, f, k);
    }
    GroupKeysStep(ids, f);
  }

  /**
   * Groups the faces of a shape by material: the map holds one entry per group
   * key, and the entry of a key lists, in order, the faces whose material id maps
   * to it.
   */
  method GroupFaces(ids: seq<int>) returns (groups: map<int, seq<nat>>)
    ensures groups.Keys == GroupKeys(ids)
    ensures forall k :: k in groups ==> groups[k] == FacesIn(ids, k)
  {
    groups := map[];
    for f := 0 to |ids|
      invariant groups.Keys == GroupKeys(ids[..f])
      invariant forall k :: k in groups ==> groups[k] == FacesIn(ids[..f], k)
    {
      var matId := ids[f];
      if matId < 0 {
        matId := 0;
      }
      GroupFacesStep(ids, f, groups, matId);
      var faces := if matId in groups then groups[matId] else [];
      groups := groups[matId := faces + [f]];
    }
    assert ids[..|ids|] == ids;
  }

  /** The offset of face f: the running sum of the vertex counts of the faces before it. */
  method IndexOffset(numFaceVertices: seq<nat>, f: nat) returns (indexOffset: nat)
    requires f <= |numFaceVertices|
    ensures indexOffset == Offset(numFaceVertices, f)
  {
    indexOffset := 0;
    for i := 0 to f
      invariant indexOffset == Sum(numFaceVertices[..i])
    {
      assert numFaceVertices[..i + 1][..i] == numFaceVertices[..i];
      indexOffset := indexOffset + numFaceVertices[i];
    }
  }

  /**
   * Emits the vertices of one material group, face after face and corner after
   * corner, each with a fresh index: the index list is 0, 1, ..., n - 1.
   */
  method FlattenGroup(attrib: Attrib, shape: ShapeMesh, faces: seq<nat>)
    returns (vertices: seq<Vertex>, indices: seq<int>)
    requires WellFormedShape(attrib, shape) && FacesOf(shape, faces)
    ensures vertices == GroupVertices(attrib, shape, faces)
    ensures indices == Iota(|vertices|)
  {
    vertices, indices := [], [];
    for j := 0 to |faces|
      invariant vertices == GroupVertices(attrib, shape, faces[..j])
      invariant indices == Iota(|vertices|)
    {
      var f := faces[j];
      var indexOffset := IndexOffset(shape.numFaceVertices, f);
      var fv := shape.numFaceVertices[f];
      OffsetBound(shape.numFaceVertices, f);
      ghost var before := vertices;
      ghost var face := FaceVertices(attrib, shape, f);
      for v := 0 to fv
        invariant vertices == before + face[..v]
        invariant indices == Iota(|vertices|)
      {
        var idx := shape.indices[indexOffset + v];
        var vertex := MakeVertex(attrib, idx);
        FaceVertexAt(attrib, shape, f, v);
        AppendNext(before, face, v);
        IotaNext(|vertices|);
        indices := indices + [|vertices|];
        vertices := vertices + [vertex];
      }
      assert face[..fv] == face;
      assert faces[..j + 1][..j] == faces[..j];
    }
    assert faces[..|faces|] == faces;
  }

  /** The loader object: the loaded meshes and materials, the running bounding box and the texture base path. */
  class ObjLoader {
    var meshes: seq<ObjMesh>
    var materials: seq<ObjMaterial>
    var minBounds: Vec3
    var maxBounds: Vec3
    var basePath: string

    /** A new loader holds nothing, and its box is the empty box. */
    constructor()
      ensures meshes == [] && materials == [] && basePath == ""
      ensures minBounds == EmptyMin && maxBounds == EmptyMax
    {
      meshes := [];
      materials := [];
      minBounds := EmptyMin;
      maxBounds := EmptyMax;
      basePath := "";
    }

    /** The midpoint of the box: as far from the minimum as from the maximum. */
    function GetCenter(): (c: Vec3)
      reads this
      ensures Sub(c, minBounds) == Sub(maxBounds, c)
      ensures LessEq(minBounds, maxBounds) ==> InBox(c, minBounds, maxBounds)
    {
      Center(minBounds, maxBounds)
    }

    /** The squared radius: a quarter of the squared diagonal of the box. */
    function GetRadiusSquared(): (r: real)
      reads this
      ensures r >= 0.0
      ensures 4.0 * r == SquaredLength(Sub(maxBounds, minBounds))
      ensures r == SquaredLength(Sub(maxBounds, GetCenter()))
    {
      RadiusSquared(minBounds, maxBounds)
    }

    /** Folds every vertex position, in order, into the box. */
    method CalculateBounds(vertices: seq<Vertex>)
      modifies this
      ensures minBounds == FoldMin(old(minBounds), Positions(vertices))
      ensures maxBounds == FoldMax(old(maxBounds), Positions(vertices))
      ensures meshes == old(meshes) && materials == old(materials) && basePath == old(basePath)
    {
      for i := 0 to |vertices|
        invariant minBounds == FoldMin(old(minBounds), Positions(vertices[..i]))
        invariant maxBounds == FoldMax(old(maxBounds), Positions(vertices[..i]))
        invariant meshes == old(meshes) && materials == old(materials) && basePath == old(basePath)
      {
        assert Positions(vertices[..i + 1])[..i] == Positions(vertices[..i]);
        minBounds := Min(minBounds, vertices[i].position);
        maxBounds := Max(maxBounds, vertices[i].position);
      }
      assert vertices[..|vertices|] == vertices;
    }

    /** Constructs the texture of every material that asks for a named one, and clears the flag of those that fail. */
    method LoadTextures(available: set<string>)
      modifies this
      ensures materials == Textured(old(materials), basePath, available)
      ensures meshes == old(meshes) && basePath == old(basePath)
      ensures minBounds == old(minBounds) && maxBounds == old(maxBounds)
    {
      for i := 0 to |materials|
        invariant |materials| == |old(materials)|
        invariant forall j :: 0 <= j < i ==> materials[j] == WithTexture(old(materials)[j], basePath, available)
        invariant forall j :: i <= j < |materials| ==> materials[j] == old(materials)[j]
        invariant meshes == old(meshes) && basePath == old(basePath)
        invariant minBounds == old(minBounds) && maxBounds == old(maxBounds)
      {
        var mat := materials[i];
        if mat.hasTexture && mat.diffuseTexturePath != "" {
          var texPath := basePath + mat.diffuseTexturePath;
          texPath := ReplaceBackslashes(texPath);
          if texPath in available {
            mat := mat.(diffuseTexture := Some(Texture(texPath)));
          } else {
            mat := mat.(hasTexture := false);
          }
          materials := materials[i := mat];
        }
      }
    }

    /**
     * One round of the per-group loop: emits the group's vertices and indices and,
     * when there are any, folds them into the box and pushes the group's mesh,
     * named after its material when the id is within the material list.
     */
    method EmitGroup(attrib: Attrib, shape: ShapeMesh, matId: int, faceIndices: seq<nat>)
      requires WellFormedShape(attrib, shape) && faceIndices == FacesIn(shape.materialIds, matId)
      modifies this
      ensures meshes == old(meshes) + GroupMesh(attrib, shape, matId, materials)
      ensures minBounds == FoldMin(old(minBounds), Positions(KeyVertices(attrib, shape, matId)))
      ensures maxBounds == FoldMax(old(maxBounds), Positions(KeyVertices(attrib, shape, matId)))
      ensures materials == old(materials) && basePath == old(basePath)
    {
      var vertices, indices := FlattenGroup(attrib, shape, faceIndices);
      GroupMeshIs(attrib, shape, matId, materials, vertices, indices);
      if |vertices| > 0 {
        CalculateBounds(vertices);
        var objMesh := NewObjMesh();
        objMesh := objMesh.(mesh := Some(MeshData(vertices, indices)), materialIndex := matId);
        if matId >= 0 && matId < |materials| {
          objMesh := objMesh.(materialName := materials[matId].name);
        }
        meshes := meshes + [objMesh];
      } else {
        assert meshes + [] == meshes;
      }
    }

    /**
     * Groups one shape's faces by material and emits, in the map's iteration
     * order, one mesh per non-empty group, folding its vertices into the box first.
     */
    method ProcessShape(attrib: Attrib, shape: ShapeMesh, order: seq<int>)
      requires WellFormedShape(attrib, shape) && IsKeyOrder(order, shape.materialIds)
      modifies this
      ensures meshes == old(meshes) + ShapeMeshes(attrib, shape, order, materials)
      ensures minBounds == FoldMin(old(minBounds), ShapePositions(attrib, shape, order))
      ensures maxBounds == FoldMax(old(maxBounds), ShapePositions(attrib, shape, order))
      ensures materials == old(materials) && basePath == old(basePath)
    {
      var groups := GroupFaces(shape.materialIds);
      ghost var meshes0, lo0, hi0 := meshes, minBounds, maxBounds;
      for j := 0 to |order|
        invariant meshes == meshes0 + ShapeMeshes(attrib, shape, order[..j], materials)
        invariant minBounds == FoldMin(lo0, ShapePositions(attrib, shape, order[..j]))
        invariant maxBounds == FoldMax(hi0, ShapePositions(attrib, shape, order[..j]))
        invariant materials == old(materials) && basePath == old(basePath)
      {
        var matId := order[j];
        var faceIndices := groups[matId];
        ShapeStep(attrib, shape, order, j, materials);
        ghost var done := ShapeMeshes(attrib, shape, order[..j], materials);
        ghost var group := GroupMesh(attrib, shape, matId, materials);
        FoldAppend(lo0, hi0, ShapePositions(attrib, shape, order[..j]), Positions(KeyVertices(attrib, shape, matId)));
        AppendAssoc(meshes0, done, group);
        EmitGroup(attrib, shape, matId, faceIndices);
      }
      assert order[..|order|] == order;
    }

    /** Rebuilds the material list from the MTL records, adding the default material when there are none. */
    method LoadMaterials(mtls: seq<MtlMaterial>)
      modifies this
      ensures materials == MaterialList(mtls)
      ensures meshes == old(meshes) && basePath == old(basePath)
      ensures minBounds == old(minBounds) && maxBounds == old(maxBounds)
    {
      materials := [];
      for i := 0 to |mtls|
        invariant materials == FromMtls(mtls[..i])
        invariant meshes == old(meshes) && basePath == old(basePath)
        invariant minBounds == old(minBounds) && maxBounds == old(maxBounds)
      {
        assert mtls[..i + 1][..i] == mtls[..i];
        materials := materials + [FromMtl(mtls[i])];
      }
      assert mtls[..|mtls|] == mtls;
      if materials == [] {
        materials := [DefaultMaterial()];
      }
    }

    /** Processes the shapes in turn, appending their meshes and folding their positions. */
    method ProcessShapes(attrib: Attrib, shapes: seq<ShapeMesh>, orders: seq<seq<int>>)
      requires WellFormedShapes(attrib, shapes) && |orders| == |shapes|
      requires forall s :: 0 <= s < |shapes| ==> IsKeyOrder(orders[s], shapes[s].materialIds)
      modifies this
      ensures meshes == old(meshes) + AllMeshes(attrib, shapes, orders, materials)
      ensures minBounds == FoldMin(old(minBounds), AllPositions(attrib, shapes, orders))
      ensures maxBounds == FoldMax(old(maxBounds), AllPositions(attrib, shapes, orders))
      ensures materials == old(materials) && basePath == old(basePath)
    {
      ghost var meshes0 := meshes;
      for s := 0 to |shapes|
        invariant meshes == meshes0 + AllMeshes(attrib, shapes[..s], orders[..s], materials)
        invariant minBounds == FoldMin(old(minBounds), AllPositions(attrib, shapes[..s], orders[..s]))
        invariant maxBounds == FoldMax(old(maxBounds), AllPositions(attrib, shapes[..s], orders[..s]))
        invariant materials == old(materials) && basePath == old(basePath)
      {
        AllStep(attrib, shapes, orders, s, materials);
        FoldAppend(old(minBounds), old(maxBounds),
          AllPositions(attrib, shapes[..s], orders[..s]),
          ShapePositions(attrib, shapes[s], orders[s]));
        AppendAssoc(meshes0, AllMeshes(attrib, shapes[..s], orders[..s], materials),
          ShapeMeshes(attrib, shapes[s], orders[s], materials));
        ProcessShape(attrib, shapes[s], orders[s]);
      }
      assert shapes[..|shapes|] == shapes;
      assert orders[..|shapes|] == orders;
    }

    /**
     * Loads a parsed OBJ file. A failed parse returns false and changes nothing.
     * Otherwise the base path is the file's directory, the materials are the MTL's
     * (or the single default) after the texture pass, the meshes are those of every
     * shape in turn, and every loaded position has been folded into the box, which
     * is not reset between loads.
     */
    method Load(filepath: string, parsed: Option<ParsedObj>, groupOrders: seq<seq<int>>, available: set<string>)
      returns (ok: bool)
      requires parsed.Some? ==> WellFormedShapes(parsed.value.attrib, parsed.value.shapes)
      requires parsed.Some? ==> |groupOrders| == |parsed.value.shapes|
      requires parsed.Some? ==> forall s :: 0 <= s < |parsed.value.shapes| ==>
        IsKeyOrder(groupOrders[s], parsed.value.shapes[s].materialIds)
      modifies this
      ensures ok <==> parsed.Some?
      ensures !ok ==> meshes == old(meshes) && materials == old(materials) && basePath == old(basePath)
      ensures !ok ==> minBounds == old(minBounds) && maxBounds == old(maxBounds)
      ensures ok ==> basePath == BasePath(filepath)
      ensures ok ==> materials == Textured(MaterialList(parsed.value.materials), basePath, available)
      ensures ok ==> meshes == AllMeshes(parsed.value.attrib, parsed.value.shapes, groupOrders, materials)
      ensures ok ==> minBounds == FoldMin(old(minBounds), AllPositions(parsed.value.attrib, parsed.value.shapes, groupOrders))
      ensures ok ==> maxBounds == FoldMax(old(maxBounds), AllPositions(parsed.value.attrib, parsed.value.shapes, groupOrders))
    {
      if parsed.None? {
        return false;
      }
      var obj := parsed.value;
      basePath := BasePath(filepath);
      LoadMaterials(obj.materials);
      LoadTextures(available);
      meshes := [];
      ProcessShapes(obj.attrib, obj.shapes, groupOrders);
      return true;
    }
  }
}
