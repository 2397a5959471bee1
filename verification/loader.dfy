/**
 * `getTrianglesData_` end to end: texture slots, the material libraries,
 * the flattened material buffer, then the OBJ line loop appending to the
 * caller's buffers. File-system access is replaced by its results: the
 * texture listing, the folder listing with each file's lines, and the lines
 * of the first `.obj` file (`None` when the folder has none).
 */
module Loader {
  import opened Wrappers
  import opened Strings
  import opened Triangles
  import opened Materials
  import opened Errors
  import opened MtlParser
  import opened ObjParser

  /** The caller's four output vectors after the load (textures are represented by their slots). */
  datatype Model = Model(
    rtx: seq<RTXTriangle>,
    bvh: seq<BVHTriangle>,
    materials: seq<Material>,
    textureSlots: map<string, int>)

  /** The material at some position of the buffer carries index `i`. */
  ghost predicate Resolves(materials: seq<Material>, from: nat, i: int) {
    exists j :: from <= j < |materials| && materials[j].index == Some(i)
  }

  /**
   * The library loop over the model folder, started from the default
   * library alone. Its table keeps the numbering invariant and the default
   * library, and, given real texture slots, holds only initialised materials.
   */
  function LoadFolder(folder: seq<FolderEntry>, slots: map<string, int>): (r: Result<Libraries, LoadError>)
    ensures r == LoadLibraries(Initial, folder, slots)
    ensures r.Ok? ==> WellIndexed(r.value) && NamedIndexed(r.value.table)
    ensures r.Ok? ==> DefaultName in r.value.table && r.value.table[DefaultName] == DefaultLibrary
    ensures r.Ok? && SlotsValid(slots) ==> LibrariesInitialised(r.value.table)
  {
    var r := LoadLibraries(Initial, folder, slots);
    if r.Err? then r
    else
      InitialWellIndexed();
      LoadLibrariesWellIndexed(Initial, folder, slots);
      DefaultSurvives(Initial, folder, slots);
      if SlotsValid(slots) then
        LoadLibrariesInitialised(Initial, folder, slots);
        r
      else r
  }

  /**
   * `getTrianglesData_`: fails with `ObjNotFound` without an OBJ file, then
   * with the library loop's error, then with the OBJ loop's; otherwise the
   * caller's buffers gain exactly the faces the OBJ loop builds against the
   * loaded library table, and the material list gains that table's entries
   * in map order, each initialised for its type.
   */
  method LoadModel(
    textureNames: seq<string>, folder: seq<FolderEntry>, obj: Option<seq<string>>,
    rtx0: seq<RTXTriangle>, bvh0: seq<BVHTriangle>, materials0: seq<Material>)
    returns (r: Result<Model, LoadError>)
    ensures obj.None? ==> r == Err(ObjNotFound)
    ensures var libs := LoadFolder(folder, TextureSlots(textureNames));
      obj.Some? && libs.Err? ==> r == Err(libs.error)
    ensures var libs := LoadFolder(folder, TextureSlots(textureNames));
      obj.Some? && libs.Ok? && ParseObj(Start(rtx0, bvh0), obj.value, libs.value.table).Err? ==>
        r == Err(ParseObj(Start(rtx0, bvh0), obj.value, libs.value.table).error)
    ensures var libs := LoadFolder(folder, TextureSlots(textureNames));
      r.Ok? <==> obj.Some? && libs.Ok? && ParseObj(Start(rtx0, bvh0), obj.value, libs.value.table).Ok?
    ensures var libs := LoadFolder(folder, TextureSlots(textureNames));
      r.Ok? ==> (
        && libs.Ok? && obj.Some?
        && ParseObj(Start(rtx0, bvh0), obj.value, libs.value.table).Ok?
        && r.value.rtx == ParseObj(Start(rtx0, bvh0), obj.value, libs.value.table).value.rtx
        && r.value.bvh == ParseObj(Start(rtx0, bvh0), obj.value, libs.value.table).value.bvh
        && |materials0| <= |r.value.materials|
        && exists keys :: FlatteningBy(libs.value.table, r.value.materials[|materials0|..], keys))
    ensures r.Ok? ==> r.value.textureSlots == TextureSlots(textureNames)
    ensures r.Ok? ==> rtx0 <= r.value.rtx && bvh0 <= r.value.bvh && materials0 <= r.value.materials
    ensures r.Ok? ==> |r.value.rtx| == |rtx0| + FaceCount(obj.value) && |r.value.bvh| == |bvh0| + FaceCount(obj.value)
    ensures r.Ok? ==> Parallel(r.value.rtx[|rtx0|..], r.value.bvh[|bvh0|..])
    ensures r.Ok? && Parallel(rtx0, bvh0) ==> Parallel(r.value.rtx, r.value.bvh)
    ensures r.Ok? ==> forall k :: |rtx0| <= k < |r.value.rtx| ==> Resolves(r.value.materials, |materials0|, r.value.rtx[k].materialIndex)
    ensures r.Ok? ==> Numbered(0) in r.value.materials[|materials0|..]
    ensures r.Ok? ==> forall i, j :: |materials0| <= i < j < |r.value.materials| && r.value.materials[i].index.Some? ==>
      r.value.materials[i].index != r.value.materials[j].index
    ensures r.Ok? ==> forall k :: |materials0| <= k < |r.value.materials| ==> Initialised(r.value.materials[k])
  {
    if obj.None? {
      return Err(ObjNotFound);
    }
    var slots := TextureSlots(textureNames);
    var loaded := LoadFolder(folder, slots);
    if loaded.Err? {
      return Err(loaded.error);
    }
    var libs := loaded.value;
    var flat, keys := Flatten(libs.table);
    assert FlatteningBy(libs.table, flat, keys);
    var parsed := ParseObj(Start(rtx0, bvh0), obj.value, libs.table);
    if parsed.Err? {
      return Err(parsed.error);
    }
    var st := parsed.value;
    ParseObjAppends(Start(rtx0, bvh0), obj.value, libs.table);
    var materials := materials0 + flat;
    FlattenFacts(libs.table, flat, keys);
    AssembleFacts(rtx0, bvh0, materials0, flat, st, FaceCount(obj.value), libs.table);
    FlatInitialised(libs.table, flat, keys);
    return Ok(Model(st.rtx, st.bvh, materials, slots));
  }

  /**
   * The model's buffers and material list, assembled from the parse and
   * the flattened table: every new face resolves, the default material is
   * there, indices are unique, and parallel buffers stay parallel.
   */
  lemma AssembleFacts(rtx0: seq<RTXTriangle>, bvh0: seq<BVHTriangle>, materials0: seq<Material>,
                      flat: seq<Material>, st: ObjState, count: nat, t: LibraryTable)
    requires Appends(Start(rtx0, bvh0), st, count, t)
    requires Numbered(0) in flat
    requires forall i :: IsMaterialIndex(t, i) ==> Resolves(flat, 0, i)
    requires forall i, j :: 0 <= i < j < |flat| && flat[i].index.Some? ==> flat[i].index != flat[j].index
    ensures forall k :: |rtx0| <= k < |st.rtx| ==> Resolves(materials0 + flat, |materials0|, st.rtx[k].materialIndex)
    ensures (materials0 + flat)[|materials0|..] == flat
    ensures forall i, j :: |materials0| <= i < j < |materials0 + flat| && (materials0 + flat)[i].index.Some? ==>
      (materials0 + flat)[i].index != (materials0 + flat)[j].index
    ensures Parallel(rtx0, bvh0) ==> Parallel(st.rtx, st.bvh)
  {
    var materials := materials0 + flat;
    forall k | |rtx0| <= k < |st.rtx|
      ensures Resolves(materials, |materials0|, st.rtx[k].materialIndex)
    {
      ResolvesAfter(materials0, flat, st.rtx[k].materialIndex);
    }
    assert materials[|materials0|..] == flat;
    forall i, j | |materials0| <= i < j < |materials| && materials[i].index.Some?
      ensures materials[i].index != materials[j].index
    {
      assert materials[i] == flat[i - |materials0|] && materials[j] == flat[j - |materials0|];
    }
    if Parallel(rtx0, bvh0) {
      assert st.rtx == rtx0 + st.rtx[|rtx0|..];
      assert st.bvh == bvh0 + st.bvh[|bvh0|..];
      ParallelAppend(rtx0, bvh0, st.rtx[|rtx0|..], st.bvh[|bvh0|..]);
    }
  }

  /** Ordered keys are different keys, so the flattened buffer holds each entry once. */
  lemma KeysDiffer(p: (string, string), q: (string, string))
    requires PairLess(p, q)
    ensures p != q
  {
    StrLessIrreflexive(p.0);
    StrLessIrreflexive(p.1);
  }

  /** The flattened buffer of a well-numbered table: the default material, every index a face can carry, and no index twice. */
  lemma FlattenFacts(t: LibraryTable, flat: seq<Material>, keys: seq<(string, string)>)
    requires DistinctIndices(t)
    requires DefaultName in t && t[DefaultName] == DefaultLibrary
    requires |flat| == |keys|
    requires forall i :: 0 <= i < |keys| ==> keys[i].0 in t && keys[i].1 in t[keys[i].0] && flat[i] == t[keys[i].0][keys[i].1]
    requires forall l, n :: l in t && n in t[l] ==> (l, n) in keys
    requires forall i, j :: 0 <= i < j < |keys| ==> PairLess(keys[i], keys[j])
    ensures Numbered(0) in flat
    ensures forall i :: IsMaterialIndex(t, i) ==> Resolves(flat, 0, i)
    ensures forall i, j :: 0 <= i < j < |flat| && flat[i].index.Some? ==> flat[i].index != flat[j].index
  {
    assert (DefaultName, DefaultName) in keys;
    var d :| 0 <= d < |keys| && keys[d] == (DefaultName, DefaultName);
    assert flat[d] == Numbered(0);
    forall i | IsMaterialIndex(t, i)
      ensures Resolves(flat, 0, i)
    {
      var l, n :| l in t && n in t[l] && t[l][n].index == Some(i);
      var j :| 0 <= j < |keys| && keys[j] == (l, n);
      assert flat[j].index == Some(i);
    }
    forall i, j | 0 <= i < j < |flat| && flat[i].index.Some?
      ensures flat[i].index != flat[j].index
    {
      KeysDiffer(keys[i], keys[j]);
    }
  }

  lemma ResolvesAfter(prefix: seq<Material>, flat: seq<Material>, i: int)
    requires Resolves(flat, 0, i)
    ensures Resolves(prefix + flat, |prefix|, i)
  {
    var j :| 0 <= j < |flat| && flat[j].index == Some(i);
    assert (prefix + flat)[|prefix| + j] == flat[j];
  }

  /** The flattened buffer of an initialised table holds only initialised materials. */
  lemma FlatInitialised(t: LibraryTable, flat: seq<Material>, keys: seq<(string, string)>)
    requires LibrariesInitialised(t) && FlatteningBy(t, flat, keys)
    ensures forall k :: 0 <= k < |flat| ==> Initialised(flat[k])
  {
    forall k | 0 <= k < |flat|
      ensures Initialised(flat[k])
    {
      assert flat[k] == t[keys[k].0][keys[k].1];
    }
  }
}
