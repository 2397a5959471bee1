/**
 * The geometry half of `getTrianglesData_`: the OBJ line loop with its
 * running vertex and texture-coordinate lists, the library/material cursor,
 * and the triangle-face decoding that appends one render triangle and one
 * BVH triangle per face.
 */
module ObjParser {
  import opened Wrappers
  import opened Strings
  import opened Vectors
  import opened Triangles
  import opened Materials
  import opened Errors
  import opened MtlParser

  // ---------------------------------------------------------------------
  // Vertex tokens
  // ---------------------------------------------------------------------

  /** The four vertex-token layouts, told apart from the first vertex token only. */
  datatype FaceEncoding = PositionOnly | PositionTexture | PositionTextureNormal | PositionNormal | Unsupported

  /** The `switch` on the number of '/' in the first vertex token, and the `"//"` test for two. */
  function EncodingOf(first: string): FaceEncoding {
    var slashes := CountChar(first, '/');
    if slashes == 0 then PositionOnly
    else if slashes == 1 then PositionTexture
    else if slashes == 2 then (if FindSub(first, "//", 0) == -1 then PositionTextureNormal else PositionNormal)
    else Unsupported
  }

  /** Whether the layout carries texture coordinates (`isTexture`). */
  predicate HasTexcoords(enc: FaceEncoding) {
    enc == PositionTexture || enc == PositionTextureNormal
  }

  /**
   * The text `std::stoi` reads the position index from. A token without '/'
   * is taken whole: `substr(0, npos)`.
   */
  function PositionText(enc: FaceEncoding, tok: string): string {
    if enc == PositionOnly then tok
    else
      var slash := FindChar(tok, '/', 0);
      Substr(tok, 0, slash).value
  }

  /**
   * The text `std::stoi` reads the texture-coordinate index from: what
   * follows the first '/', up to the second '/' for the three-part layout.
   * With no '/' at all, `npos + 1` wraps to 0 and the whole token is read.
   */
  function TexcoordText(enc: FaceEncoding, tok: string): string {
    var slash := FindChar(tok, '/', 0);
    if enc == PositionTextureNormal then
      var second := FindChar(tok, '/', slash + 1);
      Substr(tok, slash + 1, second - slash - 1).value
    else Substr(tok, slash + 1, -1).value
  }

  /** A 1-based index into a running list, decoded by `std::stoi`. */
  function Lookup<T>(list: seq<T>, text: string): (r: Result<T, LoadError>)
    ensures r.Ok? <==> Stoi(text).Some? && 1 <= Stoi(text).value <= |list|
    ensures r.Ok? ==> r.value == list[Stoi(text).value - 1]
  {
    match Stoi(text)
    case None => Err(Undecodable(text))
    case Some(k) => if 1 <= k <= |list| then Ok(list[k - 1]) else Err(IndexOutOfRange(k))
  }

  /** A resolved face corner: its position and its texture coordinate (zero when the layout has none). */
  datatype Corner = Corner(point: Vec3, uv: Vec2)

  function ResolveToken(enc: FaceEncoding, tok: string, verts: seq<Vec3>, texCoords: seq<Vec2>): (r: Result<Corner, LoadError>)
    ensures r.Ok? ==> Lookup(verts, PositionText(enc, tok)) == Ok(r.value.point)
    ensures r.Ok? && HasTexcoords(enc) ==> Lookup(texCoords, TexcoordText(enc, tok)) == Ok(r.value.uv)
    ensures r.Ok? && !HasTexcoords(enc) ==> r.value.uv == Zero2
  {
    var point :- Lookup(verts, PositionText(enc, tok));
    if HasTexcoords(enc) then
      var uv :- Lookup(texCoords, TexcoordText(enc, tok));
      Ok(Corner(point, uv))
    else Ok(Corner(point, Zero2))
  }

  // ---------------------------------------------------------------------
  // The line loop
  // ---------------------------------------------------------------------

  datatype ObjState = ObjState(
    verts: seq<Vec3>,
    texCoords: seq<Vec2>,
    currentLib: string,
    currentMtlName: string,
    rtx: seq<RTXTriangle>,
    bvh: seq<BVHTriangle>)

  /** Both cursors start at the default library's default material; the buffers start as given. */
  function Start(rtx: seq<RTXTriangle>, bvh: seq<BVHTriangle>): ObjState {
    ObjState([], [], DefaultName, DefaultName, rtx, bvh)
  }

  /** The two floats after the key word. */
  function ReadVec2(ws: seq<string>): Result<Vec2, LoadError> {
    var x :- Component(ws, 1);
    var y :- Component(ws, 2);
    Ok(Vec2(x, y))
  }

  /** Every material that has a name also has an index (what `WellIndexed` guarantees for the loaded table). */
  predicate NamedIndexed(libs: LibraryTable) {
    forall l, n :: l in libs && n in libs[l] && n != "" ==> libs[l][n].index.Some?
  }

  /** The `(library, material)` lookup a face makes, through `at`, so a missing key is an error. */
  function MaterialOf(libs: LibraryTable, lib: string, name: string): (r: Result<Material, LoadError>)
    ensures r.Ok? <==> lib in libs && name in libs[lib]
    ensures r.Ok? ==> r.value == libs[lib][name]
    ensures r.Err? ==> r.error == MaterialNotFound(lib, name)
  {
    if lib in libs && name in libs[lib] then Ok(libs[lib][name]) else Err(MaterialNotFound(lib, name))
  }

  /** The vertex token the `i`-th `>>` after the key word reads; a failed read leaves it empty. */
  function VertexToken(ws: seq<string>, i: nat): string {
    if i + 1 < |ws| then ws[i + 1] else ""
  }

  /** The triangle a face line builds, before it is appended. */
  datatype Built = Built(rtx: RTXTriangle, bvh: BVHTriangle)

  /**
   * The triangle of three vertex tokens read with one layout: three corners,
   * the material lookup, and the texture coordinates rotated to `[1],[2],[0]`.
   */
  function Assemble(st: ObjState, libs: LibraryTable, enc: FaceEncoding, tok0: string, tok1: string, tok2: string): (r: Result<Built, LoadError>)
    requires NamedIndexed(libs) && st.currentMtlName != ""
    ensures r.Ok? ==> r.value.bvh == BoundsOf(r.value.rtx)
    ensures r.Ok? ==> r.value.rtx.a.w == 0.0 && r.value.rtx.b.w == 0.0 && r.value.rtx.c.w == 0.0
    ensures r.Ok? ==>
      (MaterialOf(libs, st.currentLib, st.currentMtlName).Ok?
       && Some(r.value.rtx.materialIndex) == libs[st.currentLib][st.currentMtlName].index)
  {
    var c0 :- ResolveToken(enc, tok0, st.verts, st.texCoords);
    var c1 :- ResolveToken(enc, tok1, st.verts, st.texCoords);
    var c2 :- ResolveToken(enc, tok2, st.verts, st.texCoords);
    var m :- MaterialOf(libs, st.currentLib, st.currentMtlName);
    Ok(Built(MakeRTX(m.index.value, c0.point, c1.point, c2.point, c1.uv, c2.uv, c0.uv),
             MakeBVH(c0.point, c1.point, c2.point)))
  }

  /**
   * A face line: exactly three spaces, the layout read off the first vertex
   * token of `split(line, ' ')`, and the three tokens the word extraction
   * after `f` reads.
   */
  function BuildFace(st: ObjState, line: string, libs: LibraryTable): (r: Result<Built, LoadError>)
    requires NamedIndexed(libs) && st.currentMtlName != ""
    ensures r.Ok? ==> CountChar(line, ' ') == 3
    ensures r.Ok? ==> r.value.bvh == BoundsOf(r.value.rtx)
    ensures r.Ok? ==> r.value.rtx.a.w == 0.0 && r.value.rtx.b.w == 0.0 && r.value.rtx.c.w == 0.0
    ensures r.Ok? ==>
      (MaterialOf(libs, st.currentLib, st.currentMtlName).Ok?
       && Some(r.value.rtx.materialIndex) == libs[st.currentLib][st.currentMtlName].index)
  {
    if CountChar(line, ' ') != 3 then Err(NonTriangleFace(line))
    else
      var faceData := Tokens(line, {' '});
      if |faceData| < 2 then Err(MissingVertexToken(line))
      else
        var ws := Words(line);
        Assemble(st, libs, EncodingOf(faceData[1]), VertexToken(ws, 0), VertexToken(ws, 1), VertexToken(ws, 2))
  }

  /** One OBJ line. Lines of any other type (normals, groups, comments, blanks) change nothing. */
  function Step(st: ObjState, line: string, libs: LibraryTable): (r: Result<ObjState, LoadError>)
    requires NamedIndexed(libs) && st.currentMtlName != ""
    ensures r.Ok? ==> r.value.currentMtlName != ""
    ensures r.Ok? ==> st.rtx <= r.value.rtx && st.bvh <= r.value.bvh
    ensures r.Ok? && Key(Words(line)) != "f" ==> r.value.rtx == st.rtx && r.value.bvh == st.bvh
    ensures r.Ok? && Key(Words(line)) == "f" ==>
      BuildFace(st, line, libs).Ok?
      && r.value.rtx == st.rtx + [BuildFace(st, line, libs).value.rtx]
      && r.value.bvh == st.bvh + [BuildFace(st, line, libs).value.bvh]
    ensures r.Ok? && Key(Words(line)) == "v" ==> |r.value.verts| == |st.verts| + 1
  {
    var ws := Words(line);
    var lineType := Key(ws);
    if lineType == "mtllib" then Ok(st.(currentLib := Arg(ws, st.currentLib)))
    else if lineType == "usemtl" then Ok(st.(currentMtlName := Arg(ws, st.currentMtlName)))
    else if lineType == "v" then
      var v :- ReadVec3(ws);
      Ok(st.(verts := st.verts + [v]))
    else if lineType == "vt" then
      var v :- ReadVec2(ws);
      Ok(st.(texCoords := st.texCoords + [v]))
    else if lineType == "f" then
      var t :- BuildFace(st, line, libs);
      Ok(st.(rtx := st.rtx + [t.rtx], bvh := st.bvh + [t.bvh]))
    else Ok(st)
  }

  /** The line loop; the first failing line aborts the load. */
  function ParseObj(st: ObjState, lines: seq<string>, libs: LibraryTable): Result<ObjState, LoadError>
    requires NamedIndexed(libs) && st.currentMtlName != ""
    decreases |lines|
  {
    if lines == [] then Ok(st)
    else
      var st' :- Step(st, lines[0], libs);
      ParseObj(st', lines[1..], libs)
  }

  /** How many face lines there are. */
  function FaceCount(lines: seq<string>): nat
    decreases |lines|
  {
    if lines == [] then 0
    else (if Key(Words(lines[0])) == "f" then 1 else 0) + FaceCount(lines[1..])
  }

  /** `i` is the index of some material of the table. */
  ghost predicate IsMaterialIndex(libs: LibraryTable, i: int) {
    exists l, n :: l in libs && n in libs[l] && libs[l][n].index == Some(i)
  }

  /**
   * `r` extends `st` by `count` render triangles, each with its BVH triangle
   * at the same position and a material index of the table; the entries of
   * `st` stay as they were.
   */
  ghost predicate Appends(st: ObjState, r: ObjState, count: nat, libs: LibraryTable) {
    && st.rtx <= r.rtx && st.bvh <= r.bvh
    && |r.rtx| == |st.rtx| + count
    && |r.bvh| == |st.bvh| + count
    && Parallel(r.rtx[|st.rtx|..], r.bvh[|st.bvh|..])
    && forall k :: |st.rtx| <= k < |r.rtx| ==> IsMaterialIndex(libs, r.rtx[k].materialIndex)
  }

  lemma StepAppends(st: ObjState, line: string, libs: LibraryTable)
    requires NamedIndexed(libs) && st.currentMtlName != ""
    requires Step(st, line, libs).Ok?
    ensures Appends(st, Step(st, line, libs).value, if Key(Words(line)) == "f" then 1 else 0, libs)
  {
    var r := Step(st, line, libs).value;
    if Key(Words(line)) == "f" {
      var t := BuildFace(st, line, libs).value;
      assert r.rtx[|st.rtx|..] == [t.rtx];
      assert r.bvh[|st.bvh|..] == [t.bvh];
      assert IsMaterialIndex(libs, t.rtx.materialIndex);
    } else {
      assert r.rtx[|st.rtx|..] == [];
      assert r.bvh[|st.bvh|..] == [];
    }
  }

  lemma AppendsCompose(a: ObjState, b: ObjState, c: ObjState, k1: nat, k2: nat, libs: LibraryTable)
    requires Appends(a, b, k1, libs) && Appends(b, c, k2, libs)
    ensures Appends(a, c, k1 + k2, libs)
  {
    assert c.rtx[|a.rtx|..] == b.rtx[|a.rtx|..] + c.rtx[|b.rtx|..];
    assert c.bvh[|a.bvh|..] == b.bvh[|a.bvh|..] + c.bvh[|b.bvh|..];
    ParallelAppend(b.rtx[|a.rtx|..], b.bvh[|a.bvh|..], c.rtx[|b.rtx|..], c.bvh[|b.bvh|..]);
    forall k | |a.rtx| <= k < |c.rtx|
      ensures IsMaterialIndex(libs, c.rtx[k].materialIndex)
    {
      if k < |b.rtx| {
        assert c.rtx[k] == b.rtx[k];
      }
    }
  }

  /** A successful parse appends one render/BVH pair per face line and leaves the existing entries alone. */
  lemma {:induction false} ParseObjAppends(st: ObjState, lines: seq<string>, libs: LibraryTable)
    requires NamedIndexed(libs) && st.currentMtlName != ""
    requires ParseObj(st, lines, libs).Ok?
    ensures Appends(st, ParseObj(st, lines, libs).value, FaceCount(lines), libs)
    decreases |lines|
  {
    if lines == [] {
      assert st.rtx[|st.rtx|..] == [] && st.bvh[|st.bvh|..] == [];
    } else {
      var st' := Step(st, lines[0], libs).value;
      StepAppends(st, lines[0], libs);
      ParseObjAppends(st', lines[1..], libs);
      AppendsCompose(st, st', ParseObj(st', lines[1..], libs).value,
        if Key(Words(lines[0])) == "f" then 1 else 0, FaceCount(lines[1..]), libs);
    }
  }

  /** A buffer pair that starts parallel stays parallel through a successful parse. */
  lemma ParseObjParallel(st: ObjState, lines: seq<string>, libs: LibraryTable)
    requires NamedIndexed(libs) && st.currentMtlName != ""
    requires Parallel(st.rtx, st.bvh)
    requires ParseObj(st, lines, libs).Ok?
    ensures Parallel(ParseObj(st, lines, libs).value.rtx, ParseObj(st, lines, libs).value.bvh)
  {
    var r := ParseObj(st, lines, libs).value;
    ParseObjAppends(st, lines, libs);
    assert r.rtx == st.rtx + r.rtx[|st.rtx|..];
    assert r.bvh == st.bvh + r.bvh[|st.bvh|..];
    ParallelAppend(st.rtx, st.bvh, r.rtx[|st.rtx|..], r.bvh[|st.bvh|..]);
  }

  // ---------------------------------------------------------------------
  // The four token layouts
  // ---------------------------------------------------------------------

  /** A 1-based index as written in a file: a non-empty run of digits. */
  predicate IndexText(s: string) {
    |s| > 0 && AllDigits(s)
  }

  /** `p/t`, `p/t/n` and `p//n`. */
  function TexToken(p: string, t: string): string { p + "/" + t }
  function FullToken(p: string, t: string, n: string): string { p + "/" + t + "/" + n }
  function NormalToken(p: string, n: string): string { p + "//" + n }

  lemma SlashFreeDigits(p: string)
    requires AllDigits(p)
    ensures CountChar(p, '/') == 0
  {
    CountCharAbsent(p, '/');
  }

  /** The first '/' of a token that starts with digits is right after them. */
  lemma FirstSlash(p: string, rest: string)
    requires AllDigits(p) && |rest| > 0 && rest[0] == '/'
    ensures FindChar(p + rest, '/', 0) == |p|
  {
    FindCharIsLeast(p + rest, '/', 0, |p|);
  }

  /** Each layout is recognised as itself. */
  lemma EncodingOfLayouts(p: string, t: string, n: string)
    requires IndexText(p) && IndexText(t) && IndexText(n)
    ensures EncodingOf(p) == PositionOnly
    ensures EncodingOf(TexToken(p, t)) == PositionTexture
    ensures EncodingOf(FullToken(p, t, n)) == PositionTextureNormal
    ensures EncodingOf(NormalToken(p, n)) == PositionNormal
  {
    SlashFreeDigits(p);
    SlashFreeDigits(t);
    SlashFreeDigits(n);
    CountCharAppend(p, "/", '/');
    CountCharAppend(p + "/", t, '/');
    CountCharAppend(p + "/" + t, "/", '/');
    CountCharAppend(p + "/" + t + "/", n, '/');
    CountCharAppend(p, "//", '/');
    CountCharAppend(p + "//", n, '/');
    assert CountChar("//", '/') == 2;
    FullTokenHasNoDoubleSlash(p, t, n);
    var s := NormalToken(p, n);
    FindSubFirst(s, "//", 0);
    assert OccursAt(s, "//", |p|);
  }

  lemma FullTokenHasNoDoubleSlash(p: string, t: string, n: string)
    requires IndexText(p) && IndexText(t) && IndexText(n)
    ensures FindSub(FullToken(p, t, n), "//", 0) == -1
  {
    var s := FullToken(p, t, n);
    FullTokenSlashes(p, t, n);
    forall q | 0 <= q && q + 2 <= |s|
      ensures !OccursAt(s, "//", q)
    {
      assert s[q] != '/' || s[q + 1] != '/';
      assert s[q..q + 2][0] == s[q] && s[q..q + 2][1] == s[q + 1];
    }
  }

  /** The only '/' of `p/t/n` are its two separators, which are not adjacent. */
  lemma FullTokenSlashes(p: string, t: string, n: string)
    requires IndexText(p) && IndexText(t) && IndexText(n)
    ensures forall i :: 0 <= i < |FullToken(p, t, n)| && FullToken(p, t, n)[i] == '/' ==> i == |p| || i == |p| + 1 + |t|
  {
    var s := FullToken(p, t, n);
    forall i | 0 <= i < |s| && i != |p| && i != |p| + 1 + |t|
      ensures s[i] != '/'
    {
      if i < |p| {
        assert s[i] == p[i];
      } else if |p| < i < |p| + 1 + |t| {
        assert s[i] == t[i - |p| - 1];
      } else if i > |p| + 1 + |t| {
        assert s[i] == n[i - |p| - 2 - |t|];
      }
    }
  }

  /** The position and texture-coordinate texts are the digit runs the layout names. */
  lemma LayoutTexts(p: string, t: string, n: string)
    requires IndexText(p) && IndexText(t) && IndexText(n)
    ensures PositionText(PositionOnly, p) == p
    ensures PositionText(PositionTexture, TexToken(p, t)) == p
    ensures TexcoordText(PositionTexture, TexToken(p, t)) == t
    ensures PositionText(PositionTextureNormal, FullToken(p, t, n)) == p
    ensures TexcoordText(PositionTextureNormal, FullToken(p, t, n)) == t
    ensures PositionText(PositionNormal, NormalToken(p, n)) == p
  {
    TexTokenTexts(p, t);
    FullTokenTexts(p, t, n);
    NormalTokenTexts(p, n);
  }

  lemma TexTokenTexts(p: string, t: string)
    requires IndexText(p) && IndexText(t)
    ensures PositionText(PositionTexture, TexToken(p, t)) == p
    ensures TexcoordText(PositionTexture, TexToken(p, t)) == t
  {
    var a := TexToken(p, t);
    FirstSlash(p, "/" + t);
    assert a == p + ("/" + t);
    assert a[..|p|] == p && a[|p| + 1..] == t;
  }

  lemma FullTokenTexts(p: string, t: string, n: string)
    requires IndexText(p) && IndexText(t) && IndexText(n)
    ensures PositionText(PositionTextureNormal, FullToken(p, t, n)) == p
    ensures TexcoordText(PositionTextureNormal, FullToken(p, t, n)) == t
  {
    var b := FullToken(p, t, n);
    FirstSlash(p, "/" + t + "/" + n);
    assert b == p + ("/" + t + "/" + n);
    assert b[..|p|] == p;
    var second := FindChar(b, '/', |p| + 1);
    assert b == (p + "/") + (t + "/" + n);
    FindCharIsLeast(b, '/', |p| + 1, |p| + 1 + |t|);
    assert forall i :: |p| + 1 <= i < |p| + 1 + |t| ==> b[i] == t[i - |p| - 1];
    assert second == |p| + 1 + |t|;
    assert b[|p| + 1..|p| + 1 + |t|] == t;
  }

  lemma NormalTokenTexts(p: string, n: string)
    requires IndexText(p) && IndexText(n)
    ensures PositionText(PositionNormal, NormalToken(p, n)) == p
  {
    var c := NormalToken(p, n);
    FirstSlash(p, "//" + n);
    assert c == p + ("//" + n);
    assert c[..|p|] == p;
  }

  // ---------------------------------------------------------------------
  // Whole face lines
  // ---------------------------------------------------------------------

  /** Characters a vertex token of the four layouts is made of. */
  predicate TokenChars(s: string) {
    forall i :: 0 <= i < |s| ==> IsDigit(s[i]) || s[i] == '/'
  }

  /** `f a b c`, with single spaces. */
  function FaceLine(a: string, b: string, c: string): string {
    Join(["f", a, b, c], ' ')
  }

  lemma TokenCharsFree(s: string)
    requires TokenChars(s)
    ensures SepFree(s, Whitespace) && SepFree(s, {' '})
    ensures CountChar(s, ' ') == 0
  {
    CountCharAbsent(s, ' ');
  }

  /** A face line written with single spaces splits back into `f` and its three tokens, both ways the loader splits it. */
  lemma FaceLineSplits(a: string, b: string, c: string)
    requires |a| > 0 && |b| > 0 && |c| > 0
    requires TokenChars(a) && TokenChars(b) && TokenChars(c)
    ensures Words(FaceLine(a, b, c)) == ["f", a, b, c]
    ensures Tokens(FaceLine(a, b, c), {' '}) == ["f", a, b, c]
    ensures CountChar(FaceLine(a, b, c), ' ') == 3
  {
    TokenCharsFree(a);
    TokenCharsFree(b);
    TokenCharsFree(c);
    var ts := ["f", a, b, c];
    assert SepFree("f", Whitespace) && SepFree("f", {' '});
    TokensOfJoin(ts, ' ', Whitespace);
    TokensOfJoin(ts, ' ', {' '});
    var line := FaceLine(a, b, c);
    assert Join(ts[1..], ' ') == a + [' '] + Join(ts[2..], ' ');
    assert Join(ts[2..], ' ') == b + [' '] + Join(ts[3..], ' ');
    assert line == "f" + [' '] + (a + [' '] + (b + [' '] + c));
    CountCharAppend(b + [' '], c, ' ');
    CountCharAppend(b, [' '], ' ');
    CountCharAppend(a + [' '], b + [' '] + c, ' ');
    CountCharAppend(a, [' '], ' ');
    CountCharAppend("f" + [' '], a + [' '] + (b + [' '] + c), ' ');
    CountCharAppend("f", [' '], ' ');
  }

  /** A face line whose tokens all use the layout of the first one decodes each token with that layout. */
  lemma BuildFaceOfLine(st: ObjState, libs: LibraryTable, a: string, b: string, c: string)
    requires NamedIndexed(libs) && st.currentMtlName != ""
    requires |a| > 0 && |b| > 0 && |c| > 0
    requires TokenChars(a) && TokenChars(b) && TokenChars(c)
    ensures BuildFace(st, FaceLine(a, b, c), libs) == Assemble(st, libs, EncodingOf(a), a, b, c)
  {
    FaceLineSplits(a, b, c);
  }

  lemma LayoutChars(p: string, t: string, n: string)
    requires IndexText(p) && IndexText(t) && IndexText(n)
    ensures TokenChars(p) && TokenChars(TexToken(p, t)) && TokenChars(NormalToken(p, n))
  {
    assert forall i :: 0 <= i < |TexToken(p, t)| && i != |p| ==> TexToken(p, t)[i] == (if i < |p| then p[i] else t[i - |p| - 1]);
    assert forall i :: 0 <= i < |NormalToken(p, n)| && i > |p| + 1 ==> NormalToken(p, n)[i] == n[i - |p| - 2];
    assert forall i :: 0 <= i < |p| ==> NormalToken(p, n)[i] == p[i];
  }

  /** What three tokens read with one layout give: success exactly when every index resolves and the material exists. */
  lemma AssembleOutcome(st: ObjState, libs: LibraryTable, enc: FaceEncoding, a: string, b: string, c: string)
    requires NamedIndexed(libs) && st.currentMtlName != ""
    ensures var r := Assemble(st, libs, enc, a, b, c);
      && (r.Ok? <==>
           && ResolveToken(enc, a, st.verts, st.texCoords).Ok?
           && ResolveToken(enc, b, st.verts, st.texCoords).Ok?
           && ResolveToken(enc, c, st.verts, st.texCoords).Ok?
           && MaterialOf(libs, st.currentLib, st.currentMtlName).Ok?)
      && (r.Ok? ==>
           && Xyz(r.value.rtx.a) == ResolveToken(enc, a, st.verts, st.texCoords).value.point
           && Xyz(r.value.rtx.b) == ResolveToken(enc, b, st.verts, st.texCoords).value.point
           && Xyz(r.value.rtx.c) == ResolveToken(enc, c, st.verts, st.texCoords).value.point
           && r.value.rtx.aTex == ResolveToken(enc, b, st.verts, st.texCoords).value.uv
           && r.value.rtx.bTex == ResolveToken(enc, c, st.verts, st.texCoords).value.uv
           && r.value.rtx.cTex == ResolveToken(enc, a, st.verts, st.texCoords).value.uv)
  {
  }

  /** A `p/t p/t p/t` line is read as three `p/t` tokens. */
  lemma TexturedLine(st: ObjState, libs: LibraryTable, p: seq<string>, t: seq<string>)
    requires NamedIndexed(libs) && st.currentMtlName != ""
    requires |p| == 3 && |t| == 3
    requires forall i :: 0 <= i < 3 ==> IndexText(p[i]) && IndexText(t[i])
    ensures BuildFace(st, FaceLine(TexToken(p[0], t[0]), TexToken(p[1], t[1]), TexToken(p[2], t[2])), libs)
      == Assemble(st, libs, PositionTexture, TexToken(p[0], t[0]), TexToken(p[1], t[1]), TexToken(p[2], t[2]))
  {
    var n := "1";
    LayoutChars(p[0], t[0], n);
    LayoutChars(p[1], t[1], n);
    LayoutChars(p[2], t[2], n);
    EncodingOfLayouts(p[0], t[0], n);
    BuildFaceOfLine(st, libs, TexToken(p[0], t[0]), TexToken(p[1], t[1]), TexToken(p[2], t[2]));
  }

  /** A `p//n p//n p//n` line is read as three `p//n` tokens. */
  lemma NormalLine(st: ObjState, libs: LibraryTable, p: seq<string>, n: seq<string>)
    requires NamedIndexed(libs) && st.currentMtlName != ""
    requires |p| == 3 && |n| == 3
    requires forall i :: 0 <= i < 3 ==> IndexText(p[i]) && IndexText(n[i])
    ensures BuildFace(st, FaceLine(NormalToken(p[0], n[0]), NormalToken(p[1], n[1]), NormalToken(p[2], n[2])), libs)
      == Assemble(st, libs, PositionNormal, NormalToken(p[0], n[0]), NormalToken(p[1], n[1]), NormalToken(p[2], n[2]))
  {
    var t := "1";
    LayoutChars(p[0], t, n[0]);
    LayoutChars(p[1], t, n[1]);
    LayoutChars(p[2], t, n[2]);
    EncodingOfLayouts(p[0], t, n[0]);
    BuildFaceOfLine(st, libs, NormalToken(p[0], n[0]), NormalToken(p[1], n[1]), NormalToken(p[2], n[2]));
  }

  /** A `p/t` token resolves to the `p`-th position and the `t`-th texture coordinate. */
  lemma ResolveTexToken(p: string, t: string, verts: seq<Vec3>, texCoords: seq<Vec2>)
    requires IndexText(p) && IndexText(t)
    ensures var r := ResolveToken(PositionTexture, TexToken(p, t), verts, texCoords);
      && (r.Ok? <==> Lookup(verts, p).Ok? && Lookup(texCoords, t).Ok?)
      && (r.Ok? ==> r.value == Corner(Lookup(verts, p).value, Lookup(texCoords, t).value))
  {
    LayoutTexts(p, t, "1");
  }

  /** A `p//n` token resolves to the `p`-th position and a zero texture coordinate. */
  lemma ResolveNormalToken(p: string, n: string, verts: seq<Vec3>, texCoords: seq<Vec2>)
    requires IndexText(p) && IndexText(n)
    ensures var r := ResolveToken(PositionNormal, NormalToken(p, n), verts, texCoords);
      && (r.Ok? <==> Lookup(verts, p).Ok?)
      && (r.Ok? ==> r.value == Corner(Lookup(verts, p).value, Zero2))
  {
    LayoutTexts(p, "1", n);
  }

  /**
   * A `p/t` face: it succeeds exactly when every index is in range and the
   * material exists; positions come in input order and texture coordinates
   * rotated, slot 0 taking vertex 1's, slot 1 vertex 2's and slot 2 vertex 0's.
   */
  lemma TexturedFace(st: ObjState, libs: LibraryTable, p: seq<string>, t: seq<string>)
    requires NamedIndexed(libs) && st.currentMtlName != ""
    requires |p| == 3 && |t| == 3
    requires forall i :: 0 <= i < 3 ==> IndexText(p[i]) && IndexText(t[i])
    ensures var r := BuildFace(st, FaceLine(TexToken(p[0], t[0]), TexToken(p[1], t[1]), TexToken(p[2], t[2])), libs);
      && (r.Ok? <==>
           && Lookup(st.verts, p[0]).Ok? && Lookup(st.verts, p[1]).Ok? && Lookup(st.verts, p[2]).Ok?
           && Lookup(st.texCoords, t[0]).Ok? && Lookup(st.texCoords, t[1]).Ok? && Lookup(st.texCoords, t[2]).Ok?
           && MaterialOf(libs, st.currentLib, st.currentMtlName).Ok?)
      && (r.Ok? ==>
           && Xyz(r.value.rtx.a) == Lookup(st.verts, p[0]).value
           && Xyz(r.value.rtx.b) == Lookup(st.verts, p[1]).value
           && Xyz(r.value.rtx.c) == Lookup(st.verts, p[2]).value
           && r.value.rtx.aTex == Lookup(st.texCoords, t[1]).value
           && r.value.rtx.bTex == Lookup(st.texCoords, t[2]).value
           && r.value.rtx.cTex == Lookup(st.texCoords, t[0]).value)
  {
    var a, b, c := TexToken(p[0], t[0]), TexToken(p[1], t[1]), TexToken(p[2], t[2]);
    TexturedLine(st, libs, p, t);
    AssembleOutcome(st, libs, PositionTexture, a, b, c);
    ResolveTexToken(p[0], t[0], st.verts, st.texCoords);
    ResolveTexToken(p[1], t[1], st.verts, st.texCoords);
    ResolveTexToken(p[2], t[2], st.verts, st.texCoords);
  }

  /** A `p//n` face: it succeeds exactly when every position is in range and the material exists, and has all-zero texture coordinates. */
  lemma NormalFace(st: ObjState, libs: LibraryTable, p: seq<string>, n: seq<string>)
    requires NamedIndexed(libs) && st.currentMtlName != ""
    requires |p| == 3 && |n| == 3
    requires forall i :: 0 <= i < 3 ==> IndexText(p[i]) && IndexText(n[i])
    ensures var r := BuildFace(st, FaceLine(NormalToken(p[0], n[0]), NormalToken(p[1], n[1]), NormalToken(p[2], n[2])), libs);
      && (r.Ok? <==>
           && Lookup(st.verts, p[0]).Ok? && Lookup(st.verts, p[1]).Ok? && Lookup(st.verts, p[2]).Ok?
           && MaterialOf(libs, st.currentLib, st.currentMtlName).Ok?)
      && (r.Ok? ==>
           && Xyz(r.value.rtx.a) == Lookup(st.verts, p[0]).value
           && Xyz(r.value.rtx.b) == Lookup(st.verts, p[1]).value
           && Xyz(r.value.rtx.c) == Lookup(st.verts, p[2]).value
           && r.value.rtx.aTex == Zero2 && r.value.rtx.bTex == Zero2 && r.value.rtx.cTex == Zero2)
  {
    var a, b, c := NormalToken(p[0], n[0]), NormalToken(p[1], n[1]), NormalToken(p[2], n[2]);
    NormalLine(st, libs, p, n);
    AssembleOutcome(st, libs, PositionNormal, a, b, c);
    ResolveNormalToken(p[0], n[0], st.verts, st.texCoords);
    ResolveNormalToken(p[1], n[1], st.verts, st.texCoords);
    ResolveNormalToken(p[2], n[2], st.verts, st.texCoords);
  }

  /**
   * The same face written `p/t` and `p//n`: whenever the textured form loads,
   * the normal form loads too, with the same BVH triangle, the same
   * positions and material, and all-zero texture coordinates.
   */
  lemma FaceLayoutsAgree(st: ObjState, libs: LibraryTable, p: seq<string>, t: seq<string>, n: seq<string>)
    requires NamedIndexed(libs) && st.currentMtlName != ""
    requires |p| == 3 && |t| == 3 && |n| == 3
    requires forall i :: 0 <= i < 3 ==> IndexText(p[i]) && IndexText(t[i]) && IndexText(n[i])
    requires BuildFace(st, FaceLine(TexToken(p[0], t[0]), TexToken(p[1], t[1]), TexToken(p[2], t[2])), libs).Ok?
    ensures var r1 := BuildFace(st, FaceLine(TexToken(p[0], t[0]), TexToken(p[1], t[1]), TexToken(p[2], t[2])), libs);
      var r2 := BuildFace(st, FaceLine(NormalToken(p[0], n[0]), NormalToken(p[1], n[1]), NormalToken(p[2], n[2])), libs);
      && r2.Ok?
      && r2.value.bvh == r1.value.bvh
      && r2.value.rtx.a == r1.value.rtx.a && r2.value.rtx.b == r1.value.rtx.b && r2.value.rtx.c == r1.value.rtx.c
      && r2.value.rtx.materialIndex == r1.value.rtx.materialIndex
      && r2.value.rtx.aTex == Zero2 && r2.value.rtx.bTex == Zero2 && r2.value.rtx.cTex == Zero2
  {
    TexturedFace(st, libs, p, t);
    NormalFace(st, libs, p, n);
    var x1 := BuildFace(st, FaceLine(TexToken(p[0], t[0]), TexToken(p[1], t[1]), TexToken(p[2], t[2])), libs).value;
    var x2 := BuildFace(st, FaceLine(NormalToken(p[0], n[0]), NormalToken(p[1], n[1]), NormalToken(p[2], n[2])), libs).value;
    SamePoints(x1.rtx, x2.rtx);
  }

  /** Two render triangles built by `MakeRTX` from the same points and material agree on everything but texture coordinates. */
  lemma SamePoints(r1: RTXTriangle, r2: RTXTriangle)
    requires Xyz(r1.a) == Xyz(r2.a) && Xyz(r1.b) == Xyz(r2.b) && Xyz(r1.c) == Xyz(r2.c)
    requires r1.a.w == r2.a.w && r1.b.w == r2.b.w && r1.c.w == r2.c.w
    ensures r1.a == r2.a && r1.b == r2.b && r1.c == r2.c
    ensures BoundsOf(r1) == BoundsOf(r2)
  {
  }
}
