/**
 * The material half of `getTrianglesData_`: the texture-slot table, the
 * MTL directive loop run over every `.mtl` file of the model folder, the
 * two-level library table it fills, and the flattening of that table into
 * the material buffer.
 */
module MtlParser {
  import opened Wrappers
  import opened Strings
  import opened Vectors
  import opened Materials
  import opened Errors

  // ---------------------------------------------------------------------
  // Texture slots
  // ---------------------------------------------------------------------

  /**
   * `texFileToIndex`: every file name of `textures/` mapped to its position
   * in the listing; a name listed twice keeps its last position.
   */
  function TextureSlots(names: seq<string>): (slots: map<string, int>)
    ensures forall i :: 0 <= i < |names| ==> names[i] in slots
    ensures forall n :: n in slots ==> 0 <= slots[n] < |names| && names[slots[n]] == n
    ensures forall n, j :: n in slots && slots[n] < j < |names| ==> names[j] != n
    decreases |names|
  {
    if names == [] then map[]
    else
      var init := names[..|names| - 1];
      assert forall i :: 0 <= i < |init| ==> init[i] == names[i];
      TextureSlots(init)[names[|names| - 1] := |names| - 1]
  }

  // ---------------------------------------------------------------------
  // One MTL file
  // ---------------------------------------------------------------------

  /**
   * The loop state inside one file: the name of the material being defined
   * (`mtlName`, empty until the first `newmtl`), the file's name-to-material
   * map, and the index counter shared by all files.
   */
  datatype MtlState = MtlState(mtlName: string, table: map<string, Material>, counter: int)

  /** The first word of a line, or "" when it has none (`key` stays empty). */
  function Key(ws: seq<string>): string {
    if |ws| > 0 then ws[0] else ""
  }

  /** The second word of a line, or `fallback` when it has none (a failed `>>` leaves its target alone). */
  function Arg(ws: seq<string>, fallback: string): string {
    if |ws| > 1 then ws[1] else fallback
  }

  /** The `i`-th word decoded as a float. */
  function Component(ws: seq<string>, i: nat): Result<real, LoadError> {
    if i < |ws| then
      match ParseReal(ws[i])
      case Some(x) => Ok(x)
      case None => Err(Undecodable(ws[i]))
    else Err(Undecodable(""))
  }

  /** The three floats after the key word. */
  function ReadVec3(ws: seq<string>): Result<Vec3, LoadError> {
    var x :- Component(ws, 1);
    var y :- Component(ws, 2);
    var z :- Component(ws, 3);
    Ok(Vec3(x, y, z))
  }

  /** `nameToMtl[mtlName]` read through `operator[]`: a missing entry reads as `Material()`. */
  function Current(st: MtlState): Material {
    if st.mtlName in st.table then st.table[st.mtlName] else Fresh()
  }

  /** `nameToMtl[mtlName] = m`. */
  function Put(st: MtlState, m: Material): MtlState {
    st.(table := st.table[st.mtlName := m])
  }

  /** `0.299 r + 0.587 g + 0.114 b`, the emission strength of an `Ke` light. */
  function Luminance(v: Vec3): real {
    0.299 * v.x + 0.587 * v.y + 0.114 * v.z
  }

  /** The kinds `map_Kd` leaves alone. */
  predicate Untexturable(k: Kind) {
    k == Light || k == Glass || k == GlassHighlight
  }

  /** One line of an MTL file. Unknown keys (and every commented-out `Ni` line) change nothing. */
  function Step(st: MtlState, line: string, slots: map<string, int>): (r: Result<MtlState, LoadError>)
    ensures r.Ok? ==> r.value.counter == st.counter + (if Key(Words(line)) == "newmtl" then 1 else 0)
    ensures r.Ok? ==> st.table.Keys <= r.value.table.Keys
    ensures r.Ok? ==> forall n :: n in st.table && n != r.value.mtlName ==> r.value.table[n] == st.table[n]
    ensures r.Ok? && Key(Words(line)) != "newmtl" ==> r.value.mtlName == st.mtlName
    ensures r.Err? ==> Key(Words(line)) in {"Kd", "Ke", "map_Kd"}
  {
    var ws := Words(line);
    var key := Key(ws);
    if key == "newmtl" then
      var name := Arg(ws, st.mtlName);
      var c := st.counter + 1;
      Ok(MtlState(name, st.table[name := Numbered(c)], c))
    else if key == "Kd" then
      var v :- ReadVec3(ws);
      Ok(Put(st, Current(st).(color := Extend(v, 0.0))))
    else if key == "Ke" then
      var v :- ReadVec3(ws);
      var m := Current(st);
      if v.x > 0.0 || v.y > 0.0 || v.z > 0.0 then Ok(Put(st, MakeLight(m, v, Luminance(v))))
      else Ok(Put(st, m.(emissionColor := Some(Extend(v, 0.0)), emissionStrength := Some(0.0))))
    else if key == "GlassHighlight" then
      var m := Current(st);
      if m.kind != Light then Ok(Put(st, MakeGlassHighlight(m, Xyz(m.color)))) else Ok(Put(st, m))
    else if key == "EDGE_HIGHLIGHT" then
      Ok(Put(st, Current(st).(isEdgeHighlight := 1)))
    else if key == "map_Kd" then
      var m := Current(st);
      if Untexturable(m.kind) then Ok(st)
      else
        var texName := Arg(ws, "");
        if texName in slots then Ok(Put(st, m.(kind := Textured, textureIndex := slots[texName])))
        else Err(UnknownTexture(texName))
    else Ok(st)
  }

  /** The directive loop over a whole file; the first failing line aborts the load. */
  function ParseMtl(st: MtlState, lines: seq<string>, slots: map<string, int>): Result<MtlState, LoadError>
    decreases |lines|
  {
    if lines == [] then Ok(st)
    else
      var st' :- Step(st, lines[0], slots);
      ParseMtl(st', lines[1..], slots)
  }

  /** How many lines start a new material. */
  function NewmtlCount(lines: seq<string>): nat
    decreases |lines|
  {
    if lines == [] then 0
    else (if Key(Words(lines[0])) == "newmtl" then 1 else 0) + NewmtlCount(lines[1..])
  }

  /** The shared counter advances by exactly one per `newmtl` line of the file. */
  lemma {:induction false} ParseMtlCounter(st: MtlState, lines: seq<string>, slots: map<string, int>)
    requires ParseMtl(st, lines, slots).Ok?
    ensures ParseMtl(st, lines, slots).value.counter == st.counter + NewmtlCount(lines)
    decreases |lines|
  {
    if lines != [] {
      ParseMtlCounter(Step(st, lines[0], slots).value, lines[1..], slots);
    }
  }

  /** A `newmtl` line starts a fresh diffuse material numbered with the next counter value. */
  lemma NewmtlNumbers(st: MtlState, line: string, slots: map<string, int>)
    requires Key(Words(line)) == "newmtl"
    ensures Step(st, line, slots).Ok?
    ensures var st' := Step(st, line, slots).value;
      st'.table[st'.mtlName] == Numbered(st.counter + 1)
      && (|Words(line)| > 1 ==> st'.mtlName == Words(line)[1])
  {
  }

  /**
   * A positive `Ke` turns the current material into a light whose strength
   * is the luminance of the emission; a non-positive one keeps its kind.
   */
  lemma KeRule(st: MtlState, line: string, slots: map<string, int>, v: Vec3)
    requires Key(Words(line)) == "Ke" && ReadVec3(Words(line)) == Ok(v)
    ensures Step(st, line, slots).Ok?
    ensures var m := Step(st, line, slots).value.table[st.mtlName];
      (v.x > 0.0 || v.y > 0.0 || v.z > 0.0 ==>
        m.kind == Light && m.emissionStrength == Some(Luminance(v)) && m.emissionColor == Some(Extend(v, 0.0)))
      && (v.x <= 0.0 && v.y <= 0.0 && v.z <= 0.0 ==>
        m.kind == Current(st).kind && m.emissionStrength == Some(0.0) && m.emissionColor == Some(Extend(v, 0.0)))
      && m.index == Current(st).index && m.color == Current(st).color
  {
  }

  /** `Kd` sets the colour of the current material to the given one and changes nothing else about its type or identity. */
  lemma KdRule(st: MtlState, line: string, slots: map<string, int>, v: Vec3)
    requires Key(Words(line)) == "Kd" && ReadVec3(Words(line)) == Ok(v)
    ensures Step(st, line, slots).Ok?
    ensures Step(st, line, slots).value.mtlName == st.mtlName
    ensures var m := Step(st, line, slots).value.table[st.mtlName];
      m.color == Extend(v, 0.0) && m.kind == Current(st).kind && m.index == Current(st).index
      && m.textureIndex == Current(st).textureIndex && m.emissionColor == Current(st).emissionColor
  {
  }

  /**
   * `GlassHighlight` turns a material that is not a light into a glass
   * highlight of its current colour; a light is left as it is.
   */
  lemma GlassHighlightRule(st: MtlState, line: string, slots: map<string, int>)
    requires Key(Words(line)) == "GlassHighlight"
    ensures Step(st, line, slots).Ok?
    ensures Step(st, line, slots).value.mtlName == st.mtlName
    ensures var m := Step(st, line, slots).value.table[st.mtlName];
      (Current(st).kind != Light ==>
        m.kind == GlassHighlight && Xyz(m.color) == Xyz(Current(st).color) && m.color.w == 0.0
        && m.index == Current(st).index && m.textureIndex == Current(st).textureIndex)
      && (Current(st).kind == Light ==> m == Current(st))
  {
  }

  /** `EDGE_HIGHLIGHT` flags the current material, whatever its type, and keeps everything else. */
  lemma EdgeHighlightRule(st: MtlState, line: string, slots: map<string, int>)
    requires Key(Words(line)) == "EDGE_HIGHLIGHT"
    ensures Step(st, line, slots).Ok?
    ensures Step(st, line, slots).value.mtlName == st.mtlName
    ensures var m := Step(st, line, slots).value.table[st.mtlName];
      m.isEdgeHighlight == 1 && m.kind == Current(st).kind && m.index == Current(st).index && m.color == Current(st).color
  {
  }

  /** `map_Kd` makes the material textured with the slot of its file, and fails for a name not in `textures/`. */
  lemma MapKdRule(st: MtlState, line: string, slots: map<string, int>)
    requires Key(Words(line)) == "map_Kd" && !Untexturable(Current(st).kind)
    ensures var texName := Arg(Words(line), "");
      (texName in slots ==>
         (Step(st, line, slots).Ok?
          && Step(st, line, slots).value.table[st.mtlName].kind == Textured
          && Step(st, line, slots).value.table[st.mtlName].textureIndex == slots[texName]))
      && (texName !in slots ==> Step(st, line, slots) == Err(UnknownTexture(texName)))
  {
  }

  /**
   * No directive other than `newmtl` changes the kind of a light, a glass or
   * a glass highlight to a textured one; on them `map_Kd` does nothing at all.
   */
  lemma UntexturableKinds(st: MtlState, line: string, slots: map<string, int>)
    requires Key(Words(line)) != "newmtl" && Untexturable(Current(st).kind)
    requires Step(st, line, slots).Ok?
    ensures Step(st, line, slots).value.mtlName == st.mtlName
    ensures Current(Step(st, line, slots).value).kind != Textured
    ensures Key(Words(line)) == "map_Kd" ==> Step(st, line, slots) == Ok(st)
  {
  }

  /** Once the current material is a light, no directive short of a `newmtl` changes its kind. */
  lemma LightSticky(st: MtlState, line: string, slots: map<string, int>)
    requires Key(Words(line)) != "newmtl" && Current(st).kind == Light
    requires Step(st, line, slots).Ok?
    ensures Current(Step(st, line, slots).value).kind == Light
  {
  }

  /** Lines none of which starts a new material. */
  predicate NoNewmtl(lines: seq<string>) {
    forall i :: 0 <= i < |lines| ==> Key(Words(lines[i])) != "newmtl"
  }

  /** A light stays a light for the rest of its definition. */
  lemma {:induction false} LightPersists(st: MtlState, lines: seq<string>, slots: map<string, int>)
    requires Current(st).kind == Light && NoNewmtl(lines)
    requires ParseMtl(st, lines, slots).Ok?
    ensures Current(ParseMtl(st, lines, slots).value).kind == Light
    decreases |lines|
  {
    if lines != [] {
      assert Key(Words(lines[0])) != "newmtl";
      LightSticky(st, lines[0], slots);
      var st' := Step(st, lines[0], slots).value;
      assert forall i :: 0 <= i < |lines[1..]| ==> lines[1..][i] == lines[i + 1];
      LightPersists(st', lines[1..], slots);
    }
  }

  /** Every material of a file's table has the fields of its type initialised. */
  predicate TableInitialised(t: map<string, Material>) {
    forall n :: n in t ==> Initialised(t[n])
  }

  /** Texture slots are positions in the listing, never the `-1` of "no texture". */
  predicate SlotsValid(slots: map<string, int>) {
    forall n :: n in slots ==> slots[n] >= 0
  }

  /**
   * No directive leaves a stored material with a field of its type unset:
   * `newmtl` stores a fresh material, `Ke` makes a light with its emission
   * or sets the emission without changing the type, `GlassHighlight` needs
   * only the colour, and `map_Kd` stores a real slot.
   */
  lemma StepInitialised(st: MtlState, line: string, slots: map<string, int>)
    requires TableInitialised(st.table) && SlotsValid(slots)
    requires Step(st, line, slots).Ok?
    ensures TableInitialised(Step(st, line, slots).value.table)
  {
    var m := Current(st);
    assert Initialised(m) by {
      if st.mtlName !in st.table {
        TransitionsInitialise(m, Vec3(0.0, 0.0, 0.0), Vec3(0.0, 0.0, 0.0), 0.0, 0.0, 0);
      }
    }
    var ws := Words(line);
    var key := Key(ws);
    if key == "newmtl" {
      TransitionsInitialise(m, Vec3(0.0, 0.0, 0.0), Vec3(0.0, 0.0, 0.0), 0.0, 0.0, 0);
    } else if key == "Ke" {
      var v := ReadVec3(ws).value;
      TransitionsInitialise(m, v, v, Luminance(v), 0.0, 0);
    } else if key == "GlassHighlight" {
      TransitionsInitialise(m, Xyz(m.color), Xyz(m.color), 0.0, 0.0, 0);
    }
  }

  /** A whole file keeps every stored material initialised. */
  lemma {:induction false} ParseMtlInitialised(st: MtlState, lines: seq<string>, slots: map<string, int>)
    requires TableInitialised(st.table) && SlotsValid(slots)
    requires ParseMtl(st, lines, slots).Ok?
    ensures TableInitialised(ParseMtl(st, lines, slots).value.table)
    decreases |lines|
  {
    if lines != [] {
      StepInitialised(st, lines[0], slots);
      ParseMtlInitialised(Step(st, lines[0], slots).value, lines[1..], slots);
    }
  }

  /**
   * The numbering invariant inside one file started with counter `base`:
   * every assigned index is one of this file's (`base < index <= counter`),
   * no two entries share one, and only the nameless entry a directive
   * before the first `newmtl` creates may lack an index.
   */
  predicate IndexedFile(st: MtlState, base: int) {
    && base <= st.counter
    && (forall n :: n in st.table && st.table[n].index.Some? ==> base < st.table[n].index.value <= st.counter)
    && (forall n :: n in st.table && n != "" ==> st.table[n].index.Some?)
    && (st.mtlName != "" ==> st.mtlName in st.table)
    && (forall n1, n2 :: n1 in st.table && n2 in st.table && st.table[n1].index.Some? && st.table[n1].index == st.table[n2].index ==> n1 == n2)
  }

  /** Rewriting the current entry with its own index keeps the numbering. */
  lemma PutIndexed(st: MtlState, m: Material, base: int)
    requires IndexedFile(st, base) && m.index == Current(st).index
    ensures IndexedFile(Put(st, m), base)
  {
    var st' := Put(st, m);
    forall n1, n2 | n1 in st'.table && n2 in st'.table && st'.table[n1].index.Some? && st'.table[n1].index == st'.table[n2].index
      ensures n1 == n2
    {
      assert n1 in st.table && n2 in st.table;
    }
  }

  /** A `newmtl` entry takes an index above every index in use. */
  lemma NewIndexed(st: MtlState, name: string, base: int)
    requires IndexedFile(st, base)
    requires name == "" ==> st.mtlName == ""
    ensures IndexedFile(MtlState(name, st.table[name := Numbered(st.counter + 1)], st.counter + 1), base)
  {
  }

  lemma StepIndexed(st: MtlState, line: string, slots: map<string, int>, base: int)
    requires IndexedFile(st, base)
    requires Step(st, line, slots).Ok?
    ensures IndexedFile(Step(st, line, slots).value, base)
  {
    var ws := Words(line);
    var key := Key(ws);
    var m := Current(st);
    if key == "newmtl" {
      NewIndexed(st, Arg(ws, st.mtlName), base);
    } else if key == "Kd" {
      PutIndexed(st, m.(color := Extend(ReadVec3(ws).value, 0.0)), base);
    } else if key == "Ke" {
      var v := ReadVec3(ws).value;
      if v.x > 0.0 || v.y > 0.0 || v.z > 0.0 {
        PutIndexed(st, MakeLight(m, v, Luminance(v)), base);
      } else {
        PutIndexed(st, m.(emissionColor := Some(Extend(v, 0.0)), emissionStrength := Some(0.0)), base);
      }
    } else if key == "GlassHighlight" {
      if m.kind != Light {
        PutIndexed(st, MakeGlassHighlight(m, Xyz(m.color)), base);
      } else {
        PutIndexed(st, m, base);
      }
    } else if key == "EDGE_HIGHLIGHT" {
      PutIndexed(st, m.(isEdgeHighlight := 1), base);
    } else if key == "map_Kd" && !Untexturable(m.kind) {
      PutIndexed(st, m.(kind := Textured, textureIndex := slots[Arg(ws, "")]), base);
    }
  }

  lemma {:induction false} ParseMtlIndexed(st: MtlState, lines: seq<string>, slots: map<string, int>, base: int)
    requires IndexedFile(st, base)
    requires ParseMtl(st, lines, slots).Ok?
    ensures IndexedFile(ParseMtl(st, lines, slots).value, base)
    decreases |lines|
  {
    if lines != [] {
      StepIndexed(st, lines[0], slots, base);
      ParseMtlIndexed(Step(st, lines[0], slots).value, lines[1..], slots, base);
    }
  }

  // ---------------------------------------------------------------------
  // The model folder
  // ---------------------------------------------------------------------

  /** A file of the model folder: its name and its lines, or `None` when it cannot be opened. */
  datatype FolderEntry = FolderEntry(name: string, lines: Option<seq<string>>)

  /** `libToMtlMaps`: library file name to that file's name-to-material map. */
  type LibraryTable = map<string, map<string, Material>>

  datatype Libraries = Libraries(table: LibraryTable, counter: int)

  const DefaultName: string := "_default_"

  /** The synthetic material every model starts with, numbered 0. */
  const DefaultLibrary: map<string, Material> := map[DefaultName := Numbered(0)]

  const Initial: Libraries := Libraries(map[DefaultName := DefaultLibrary], 0)

  /**
   * Whether the loader reads the file as a material library: the text
   * after the FIRST '.' must be exactly "mtl".
   */
  predicate IsLibraryFile(name: string) {
    var dot := FindChar(name, '.', 0);
    dot >= 0 && name[dot + 1..] == "mtl"
  }

  /**
   * A library file name is a stem without '.' followed by ".mtl" and
   * nothing else; "scene.v2.mtl" or "scene.MTL" are skipped.
   */
  lemma IsLibraryFileShape(name: string)
    ensures IsLibraryFile(name) <==>
      |name| >= 4 && name[|name| - 4..] == ".mtl" && '.' !in name[..|name| - 4]
  {
    if IsLibraryFile(name) {
      LibraryFileHasShape(name);
    }
    if |name| >= 4 && name[|name| - 4..] == ".mtl" && '.' !in name[..|name| - 4] {
      ShapeIsLibraryFile(name);
    }
  }

  lemma LibraryFileHasShape(name: string)
    requires IsLibraryFile(name)
    ensures |name| >= 4 && name[|name| - 4..] == ".mtl" && '.' !in name[..|name| - 4]
  {
    var dot := FindChar(name, '.', 0);
    FindCharFirst(name, '.', 0);
    assert name[dot + 1..] == "mtl";
    assert |name| == dot + 4;
    assert name[|name| - 4..] == [name[dot]] + name[dot + 1..];
    assert forall i :: 0 <= i < |name| - 4 ==> name[..|name| - 4][i] == name[i] != '.';
  }

  lemma ShapeIsLibraryFile(name: string)
    requires |name| >= 4 && name[|name| - 4..] == ".mtl" && '.' !in name[..|name| - 4]
    ensures IsLibraryFile(name)
  {
    var dot := FindChar(name, '.', 0);
    assert name[|name| - 4] == '.';
    FindCharIsLeast(name, '.', 0, |name| - 4);
    forall p | 0 <= p < |name| - 4
      ensures name[p] != '.'
    {
      assert name[..|name| - 4][p] == name[p];
    }
    assert dot == |name| - 4;
    assert name[dot + 1..] == name[|name| - 4..][1..];
  }

  /** One folder entry of the library loop. */
  function LoadFile(libs: Libraries, e: FolderEntry, slots: map<string, int>): (r: Result<Libraries, LoadError>)
    ensures r.Err? && FindChar(e.name, '.', 0) == -1 ==> r.error == MissingExtension(e.name)
    ensures r.Ok? ==> FindChar(e.name, '.', 0) >= 0
    ensures r.Ok? && (!IsLibraryFile(e.name) || e.lines.None?) ==> r.value == libs
    ensures r.Ok? ==> forall l :: l in libs.table && l != e.name ==> l in r.value.table && r.value.table[l] == libs.table[l]
    ensures r.Ok? ==> r.value.table.Keys <= libs.table.Keys + {e.name}
  {
    var dot := FindChar(e.name, '.', 0);
    if dot == -1 then Err(MissingExtension(e.name))
    else if e.name[dot + 1..] != "mtl" then Ok(libs)
    else if e.lines.None? then Ok(libs)
    else
      var st :- ParseMtl(MtlState("", map[], libs.counter), e.lines.value, slots);
      Ok(Libraries(libs.table[e.name := st.table], st.counter))
  }

  /** The library loop over the folder listing, in listing order. */
  function LoadLibraries(libs: Libraries, entries: seq<FolderEntry>, slots: map<string, int>): Result<Libraries, LoadError>
    decreases |entries|
  {
    if entries == [] then Ok(libs)
    else
      var libs' :- LoadFile(libs, entries[0], slots);
      LoadLibraries(libs', entries[1..], slots)
  }

  /** How many `newmtl` lines the folder's readable library files hold. */
  function FolderNewmtlCount(entries: seq<FolderEntry>): nat
    decreases |entries|
  {
    if entries == [] then 0
    else
      var e := entries[0];
      (if IsLibraryFile(e.name) && e.lines.Some? then NewmtlCount(e.lines.value) else 0) + FolderNewmtlCount(entries[1..])
  }

  /** The counter is shared across files: it ends at the number of `newmtl` lines of the whole folder. */
  lemma {:induction false} LoadLibrariesCounter(libs: Libraries, entries: seq<FolderEntry>, slots: map<string, int>)
    requires LoadLibraries(libs, entries, slots).Ok?
    ensures LoadLibraries(libs, entries, slots).value.counter == libs.counter + FolderNewmtlCount(entries)
    decreases |entries|
  {
    if entries != [] {
      var e := entries[0];
      var libs' := LoadFile(libs, e, slots).value;
      if IsLibraryFile(e.name) && e.lines.Some? {
        ParseMtlCounter(MtlState("", map[], libs.counter), e.lines.value, slots);
      }
      LoadLibrariesCounter(libs', entries[1..], slots);
    }
  }

  /** A folder entry without '.' aborts the whole load. */
  lemma {:induction false} MissingExtensionAborts(libs: Libraries, entries: seq<FolderEntry>, slots: map<string, int>, i: nat)
    requires i < |entries| && FindChar(entries[i].name, '.', 0) == -1
    ensures LoadLibraries(libs, entries, slots).Err?
    decreases i
  {
    if i > 0 {
      var r := LoadFile(libs, entries[0], slots);
      if r.Ok? {
        assert entries[1..][i - 1] == entries[i];
        MissingExtensionAborts(r.value, entries[1..], slots, i - 1);
      }
    }
  }

  /** The synthetic default library survives the loop untouched: every file name the loop stores contains '.'. */
  lemma {:induction false} DefaultSurvives(libs: Libraries, entries: seq<FolderEntry>, slots: map<string, int>)
    requires DefaultName in libs.table && libs.table[DefaultName] == DefaultLibrary
    requires LoadLibraries(libs, entries, slots).Ok?
    ensures DefaultName in LoadLibraries(libs, entries, slots).value.table
    ensures LoadLibraries(libs, entries, slots).value.table[DefaultName] == DefaultLibrary
    decreases |entries|
  {
    if entries != [] {
      var e := entries[0];
      var libs' := LoadFile(libs, e, slots).value;
      DefaultHasNoDot();
      DefaultSurvives(libs', entries[1..], slots);
    }
  }

  lemma DefaultHasNoDot()
    ensures FindChar(DefaultName, '.', 0) == -1
  {
    assert forall i :: 0 <= i < |DefaultName| ==> DefaultName[i] != '.';
  }

  /** No two entries of the whole table share an assigned index. */
  predicate DistinctIndices(t: LibraryTable) {
    forall l1, n1, l2, n2 ::
      l1 in t && n1 in t[l1] && l2 in t && n2 in t[l2]
      && t[l1][n1].index.Some? && t[l1][n1].index == t[l2][n2].index
      ==> l1 == l2 && n1 == n2
  }

  /**
   * The table-wide numbering invariant: assigned indices lie in
   * `0..counter` and are pairwise distinct, and every named entry has one.
   */
  predicate WellIndexed(libs: Libraries) {
    && 0 <= libs.counter
    && (forall l, n :: l in libs.table && n in libs.table[l] && libs.table[l][n].index.Some? ==>
          0 <= libs.table[l][n].index.value <= libs.counter)
    && (forall l, n :: l in libs.table && n in libs.table[l] && n != "" ==> libs.table[l][n].index.Some?)
    && DistinctIndices(libs.table)
  }

  lemma InitialWellIndexed()
    ensures WellIndexed(Initial)
  {
  }

  lemma LoadFileWellIndexed(libs: Libraries, e: FolderEntry, slots: map<string, int>)
    requires WellIndexed(libs)
    requires LoadFile(libs, e, slots).Ok?
    ensures WellIndexed(LoadFile(libs, e, slots).value)
  {
    if IsLibraryFile(e.name) && e.lines.Some? {
      var st0 := MtlState("", map[], libs.counter);
      ParseMtlIndexed(st0, e.lines.value, slots, libs.counter);
      var st := ParseMtl(st0, e.lines.value, slots).value;
      var t := libs.table[e.name := st.table];
      assert LoadFile(libs, e, slots).value == Libraries(t, st.counter);
      forall l1, n1, l2, n2 |
        l1 in t && n1 in t[l1] && l2 in t && n2 in t[l2]
        && t[l1][n1].index.Some? && t[l1][n1].index == t[l2][n2].index
        ensures l1 == l2 && n1 == n2
      {
        assert l1 == e.name ==> libs.counter < t[l1][n1].index.value;
        assert l2 == e.name ==> libs.counter < t[l2][n2].index.value;
        assert l1 != e.name ==> t[l1][n1].index.value <= libs.counter;
        assert l2 != e.name ==> t[l2][n2].index.value <= libs.counter;
      }
    }
  }

  lemma {:induction false} LoadLibrariesWellIndexed(libs: Libraries, entries: seq<FolderEntry>, slots: map<string, int>)
    requires WellIndexed(libs)
    requires LoadLibraries(libs, entries, slots).Ok?
    ensures WellIndexed(LoadLibraries(libs, entries, slots).value)
    decreases |entries|
  {
    if entries != [] {
      LoadFileWellIndexed(libs, entries[0], slots);
      LoadLibrariesWellIndexed(LoadFile(libs, entries[0], slots).value, entries[1..], slots);
    }
  }

  /** Every material of every library has the fields of its type initialised. */
  predicate LibrariesInitialised(t: LibraryTable) {
    forall l :: l in t ==> TableInitialised(t[l])
  }

  /** The library loop stores only initialised materials, the default one included. */
  lemma {:induction false} LoadLibrariesInitialised(libs: Libraries, entries: seq<FolderEntry>, slots: map<string, int>)
    requires LibrariesInitialised(libs.table) && SlotsValid(slots)
    requires LoadLibraries(libs, entries, slots).Ok?
    ensures LibrariesInitialised(LoadLibraries(libs, entries, slots).value.table)
    decreases |entries|
  {
    if entries != [] {
      var e := entries[0];
      if IsLibraryFile(e.name) && e.lines.Some? {
        ParseMtlInitialised(MtlState("", map[], libs.counter), e.lines.value, slots);
      }
      LoadLibrariesInitialised(LoadFile(libs, e, slots).value, entries[1..], slots);
    }
  }

  // ---------------------------------------------------------------------
  // Flattening into the material buffer
  // ---------------------------------------------------------------------

  /** The order a `std::map` of `std::map`s is walked in: by library, then by material name. */
  predicate PairLess(p: (string, string), q: (string, string)) {
    StrLess(p.0, q.0) || (p.0 == q.0 && StrLess(p.1, q.1))
  }

  /** Appends one library's materials in name order, each tagged with its `(library, name)` key. */
  method AppendLibrary(materials: seq<Material>, keys: seq<(string, string)>, lib: string, m: map<string, Material>)
    returns (materials': seq<Material>, keys': seq<(string, string)>)
    requires |materials| == |keys|
    ensures |materials'| == |keys'| == |keys| + |m|
    ensures materials'[..|materials|] == materials && keys'[..|keys|] == keys
    ensures forall k :: |keys| <= k < |keys'| ==> keys'[k].0 == lib && keys'[k].1 in m && materials'[k] == m[keys'[k].1]
    ensures forall n :: n in m ==> (lib, n) in keys'[|keys|..]
    ensures forall a, b :: |keys| <= a < b < |keys'| ==> StrLess(keys'[a].1, keys'[b].1)
  {
    var names := SortedKeys(m);
    materials', keys' := materials, keys;
    for j := 0 to |names|
      invariant |materials'| == |keys'| == |keys| + j
      invariant materials'[..|materials|] == materials && keys'[..|keys|] == keys
      invariant forall k :: |keys| <= k < |keys'| ==> keys'[k] == (lib, names[k - |keys|]) && materials'[k] == m[names[k - |keys|]]
    {
      materials' := materials' + [m[names[j]]];
      keys' := keys' + [(lib, names[j])];
    }
    forall n | n in m
      ensures (lib, n) in keys'[|keys|..]
    {
      var j :| 0 <= j < |names| && names[j] == n;
      assert keys'[|keys|..][j] == (lib, n);
    }
  }

  /** What the flattening loop has produced after the first `i` libraries of `libs`. */
  predicate Flattened(t: LibraryTable, libs: seq<string>, i: nat, materials: seq<Material>, keys: seq<(string, string)>)
    requires i <= |libs|
  {
    && |materials| == |keys|
    && (forall k :: 0 <= k < |keys| ==> keys[k].0 in t && keys[k].1 in t[keys[k].0] && materials[k] == t[keys[k].0][keys[k].1])
    && (forall l, n :: l in libs[..i] && l in t && n in t[l] ==> (l, n) in keys)
    && (forall k, q :: 0 <= k < |keys| && i <= q < |libs| ==> StrLess(keys[k].0, libs[q]))
    && (forall a, b :: 0 <= a < b < |keys| ==> PairLess(keys[a], keys[b]))
  }

  /** Appending one library's entries, in name order, extends what the flattening loop has produced by that library. */
  lemma FlattenedStep(t: LibraryTable, libs: seq<string>, i: nat,
                      materials: seq<Material>, keys: seq<(string, string)>,
                      materials': seq<Material>, keys': seq<(string, string)>)
    requires i < |libs| && StrictlySorted(libs) && libs[i] in t
    requires Flattened(t, libs, i, materials, keys)
    requires |materials'| == |keys'| == |keys| + |t[libs[i]]|
    requires materials'[..|materials|] == materials && keys'[..|keys|] == keys
    requires forall k :: |keys| <= k < |keys'| ==> keys'[k].0 == libs[i] && keys'[k].1 in t[libs[i]] && materials'[k] == t[libs[i]][keys'[k].1]
    requires forall n :: n in t[libs[i]] ==> (libs[i], n) in keys'[|keys|..]
    requires forall a, b :: |keys| <= a < b < |keys'| ==> StrLess(keys'[a].1, keys'[b].1)
    ensures Flattened(t, libs, i + 1, materials', keys')
  {
    StepEntries(t, libs, i, materials, keys, materials', keys');
    StepCovers(t, libs, i, materials, keys, materials', keys');
    StepBelow(t, libs, i, materials, keys, materials', keys');
    StepSorted(t, libs, i, materials, keys, materials', keys');
  }

  lemma StepSorted(t: LibraryTable, libs: seq<string>, i: nat,
                      materials: seq<Material>, keys: seq<(string, string)>,
                      materials': seq<Material>, keys': seq<(string, string)>)
    requires i < |libs| && StrictlySorted(libs) && libs[i] in t
    requires Flattened(t, libs, i, materials, keys)
    requires |materials'| == |keys'| == |keys| + |t[libs[i]]|
    requires materials'[..|materials|] == materials && keys'[..|keys|] == keys
    requires forall k :: |keys| <= k < |keys'| ==> keys'[k].0 == libs[i] && keys'[k].1 in t[libs[i]] && materials'[k] == t[libs[i]][keys'[k].1]
    requires forall a, b :: |keys| <= a < b < |keys'| ==> StrLess(keys'[a].1, keys'[b].1)
    ensures forall a, b :: 0 <= a < b < |keys'| ==> PairLess(keys'[a], keys'[b])
  {
    forall a, b | 0 <= a < b < |keys'|
      ensures PairLess(keys'[a], keys'[b])
    {
      if b < |keys| {
        assert keys'[a] == keys[a] && keys'[b] == keys[b];
      } else if a < |keys| {
        assert keys'[a] == keys[a];
      }
    }
  }

  lemma StepBelow(t: LibraryTable, libs: seq<string>, i: nat,
                      materials: seq<Material>, keys: seq<(string, string)>,
                      materials': seq<Material>, keys': seq<(string, string)>)
    requires i < |libs| && StrictlySorted(libs) && libs[i] in t
    requires Flattened(t, libs, i, materials, keys)
    requires |materials'| == |keys'| == |keys| + |t[libs[i]]|
    requires materials'[..|materials|] == materials && keys'[..|keys|] == keys
    requires forall k :: |keys| <= k < |keys'| ==> keys'[k].0 == libs[i] && keys'[k].1 in t[libs[i]] && materials'[k] == t[libs[i]][keys'[k].1]
    ensures forall k, q :: 0 <= k < |keys'| && i + 1 <= q < |libs| ==> StrLess(keys'[k].0, libs[q])
  {
    forall k, q | 0 <= k < |keys'| && i + 1 <= q < |libs|
      ensures StrLess(keys'[k].0, libs[q])
    {
      if k < |keys| {
        assert keys'[k] == keys[k];
        StrLessTransitive(keys[k].0, libs[i], libs[q]);
      }
    }
  }

  lemma StepCovers(t: LibraryTable, libs: seq<string>, i: nat,
                      materials: seq<Material>, keys: seq<(string, string)>,
                      materials': seq<Material>, keys': seq<(string, string)>)
    requires i < |libs| && StrictlySorted(libs) && libs[i] in t
    requires Flattened(t, libs, i, materials, keys)
    requires |materials'| == |keys'| == |keys| + |t[libs[i]]|
    requires materials'[..|materials|] == materials && keys'[..|keys|] == keys
    requires forall k :: |keys| <= k < |keys'| ==> keys'[k].0 == libs[i] && keys'[k].1 in t[libs[i]] && materials'[k] == t[libs[i]][keys'[k].1]
    requires forall n :: n in t[libs[i]] ==> (libs[i], n) in keys'[|keys|..]
    ensures forall l, n :: l in libs[..i + 1] && l in t && n in t[l] ==> (l, n) in keys'
  {
    var lib := libs[i];
    forall l, n | l in libs[..i + 1] && l in t && n in t[l]
      ensures (l, n) in keys'
    {
      if l == lib {
        assert (l, n) in keys'[|keys|..];
      } else {
        assert libs[..i + 1] == libs[..i] + [lib];
        assert (l, n) in keys;
        var k :| 0 <= k < |keys| && keys[k] == (l, n);
        assert keys'[k] == (l, n);
      }
    }
  }

  lemma StepEntries(t: LibraryTable, libs: seq<string>, i: nat,
                      materials: seq<Material>, keys: seq<(string, string)>,
                      materials': seq<Material>, keys': seq<(string, string)>)
    requires i < |libs| && StrictlySorted(libs) && libs[i] in t
    requires Flattened(t, libs, i, materials, keys)
    requires |materials'| == |keys'| == |keys| + |t[libs[i]]|
    requires materials'[..|materials|] == materials && keys'[..|keys|] == keys
    requires forall k :: |keys| <= k < |keys'| ==> keys'[k].0 == libs[i] && keys'[k].1 in t[libs[i]] && materials'[k] == t[libs[i]][keys'[k].1]
    ensures forall k :: 0 <= k < |keys'| ==> keys'[k].0 in t && keys'[k].1 in t[keys'[k].0] && materials'[k] == t[keys'[k].0][keys'[k].1]
  {
    forall k | 0 <= k < |keys'|
      ensures keys'[k].0 in t && keys'[k].1 in t[keys'[k].0] && materials'[k] == t[keys'[k].0][keys'[k].1]
    {
      if k < |keys| {
        assert keys'[k] == keys[k] && materials'[k] == materials[k];
      }
    }
  }

  /**
   * `materials` lists the table's entries in map order, each exactly once;
   * `keys` names the `(library, name)` entry each material came from.
   */
  predicate FlatteningBy(t: LibraryTable, materials: seq<Material>, keys: seq<(string, string)>) {
    && |materials| == |keys|
    && (forall i :: 0 <= i < |keys| ==> keys[i].0 in t && keys[i].1 in t[keys[i].0] && materials[i] == t[keys[i].0][keys[i].1])
    && (forall l, n :: l in t && n in t[l] ==> (l, n) in keys)
    && (forall i, j :: 0 <= i < j < |keys| ==> PairLess(keys[i], keys[j]))
  }

  /**
   * The material buffer: every `(library, name)` entry of the table exactly
   * once, in map order. `keys` records which entry each material came from.
   */
  method Flatten(t: LibraryTable) returns (materials: seq<Material>, keys: seq<(string, string)>)
    ensures |materials| == |keys|
    ensures forall i :: 0 <= i < |keys| ==> keys[i].0 in t && keys[i].1 in t[keys[i].0] && materials[i] == t[keys[i].0][keys[i].1]
    ensures forall l, n :: l in t && n in t[l] ==> (l, n) in keys
    ensures forall i, j :: 0 <= i < j < |keys| ==> PairLess(keys[i], keys[j])
  {
    var libs := SortedKeys(t);
    materials, keys := [], [];
    for i := 0 to |libs|
      invariant Flattened(t, libs, i, materials, keys)
    {
      var materials', keys' := AppendLibrary(materials, keys, libs[i], t[libs[i]]);
      FlattenedStep(t, libs, i, materials, keys, materials', keys');
      materials, keys := materials', keys';
    }
    assert libs[..|libs|] == libs;
  }
}
