# Ray tracer scene input: OBJ/MTL loading, procedural rooms, random numbers and Perlin tables

This project models, in Dafny, the parts of the GPU ray tracer that decide
what the GPU is given to render:

- **Model loading** (`getTrianglesData_` in `mesh.h`). The loader:
  - splits each line and decodes its numbers;
  - builds the texture slots;
  - runs the MTL directive loop over every `.mtl` file of the model folder and fills a two-level library table;
  - flattens that table into the material buffer in `std::map` order;
  - runs the OBJ line loop, which turns each triangle face into one `RTXTriangle` and its `BVHTriangle` in parallel buffers.
- **Procedural scene generators** (`rayTracing.cpp`): the sky light plane,
  the four Cornell boxes and the rotated cubes. Each one appends triangles
  to the same two buffers, sized from the bounding box of what is already
  there.
- **The hash-based random number generator** (`random.h`).
- **The integer side of Perlin noise** (`perlin3D.h`, `perlin2D.h`):
  - the Fisher–Yates permutation;
  - the doubled 512-entry table and the lattice-corner hash lookups;
  - the gradient selection;
  - the grid fill of `getPerlinMap`.

Modules follow the program's structure:

| module | file | what it holds |
|---|---|---|
| `Wrappers` | `wrappers.dfy` | `Option` and `Result` |
| `Strings` | `strings.dfy` | both `split` overloads, `find`, `std::string::find`/`substr`, word extraction, `stoi` and float decoding, the key order of `std::map<std::string, …>` |
| `Vectors` | `vectors.dfy` | `vec2`/`vec3`/`vec4`, componentwise min/max, 3×3 matrices |
| `Triangles` | `triangles.dfy` | `RTXTriangle`, `BVHTriangle`, the parallel-buffer invariant, `BoundingBox` |
| `Materials` | `materials.dfy` | `Material` and its `make*` transitions |
| `Errors` | `errors.dfy` | every way a load aborts |
| `MtlParser` | `mtl_parser.dfy` | texture slots, MTL directives, the library loop, flattening |
| `ObjParser` | `obj_parser.dfy` | OBJ directives and face decoding |
| `Loader` | `loader.dfy` | `getTrianglesData_` end to end |
| `SceneGen` | `generators.dfy` | the scene generators |
| `Random` | `random.dfy` | `random`, `randomFloat`, `random_int` |
| `Perlin` | `perlin.dfy` | permutation, table, corner hashes, gradients, `getPerlinMap` |

How the outside world is represented:

- **File-system access** becomes its results: the texture listing, the folder listing with each file's lines (`None` when the file cannot be opened), and the lines of the first `.obj` file.
- **Every place where the C++ throws** or would read out of bounds becomes an `Err` of `Errors.LoadError`.
- **Floats** are modelled as reals.
- **The 32-bit `unsigned int` of the random state** is modelled exactly, wrap-around included.

## Model

| member | source | states |
|---|---|---|
| Strings.SplitChar | RayTracing/Assets/headers/mesh.h:156-175 | `split(str, c)` returns exactly the maximal non-empty runs between delimiters, as the independent reference `Tokens` defines them. Every token is non-empty and free of the delimiter. Concatenating the tokens gives the input with the delimiters removed. |
| Strings.TokensOfJoin | RayTracing/Assets/headers/mesh.h:156-175 | Round trip: joining non-empty, delimiter-free words with the delimiter and splitting again gives back the same words. |
| Strings.TokensShape | RayTracing/Assets/headers/mesh.h:156-175 | Every token of the reference split is a non-empty run without separators, and the tokens concatenate to the input with its separators removed. |
| Strings.SplitStr | RayTracing/Assets/headers/mesh.h:177-196 | `split(str, delim)` yields only non-empty pieces, none of which contains the delimiter. For a one-character delimiter it agrees with `split(str, c)`. |
| Strings.SplitStrRound | RayTracing/Assets/headers/mesh.h:182-188 | One round of the `find`/`substr` loop keeps both facts: every piece is clean, and the pieces so far, followed by the split of the rest, are the split of the whole string. |
| Strings.FindSub | RayTracing/Assets/headers/mesh.h:180-187 | `std::string::find(sub, pos)` returns `npos` (-1) or a position at or after `pos` where `sub` occurs. |
| Strings.FindSubFirst | RayTracing/Assets/headers/mesh.h:180-187 | `find` is the first occurrence: there is none after `pos` when it returns -1, and none between `pos` and the returned position otherwise. |
| Strings.FindCharFirst | RayTracing/Assets/headers/mesh.h:331 | `find(c)` on a string returns the first position of `c`, or -1 when `c` does not occur. |
| Strings.FindCharIsLeast | RayTracing/Assets/headers/mesh.h:331 | Any occurrence of `c` at or after `pos` bounds the found position from above, so `find` never misses an occurrence. |
| Strings.Find | RayTracing/Assets/headers/mesh.h:212-220 | The helper `find(str, startPos, chr)` returns the first index at or after `startPos` holding `chr`, or -1 when there is none. A negative `startPos` gives -1, because the signed/unsigned comparison ends the loop at once. |
| Strings.Substr | RayTracing/Assets/headers/mesh.h:338 | `substr(pos, count)` is defined exactly for `pos <= size`. It takes the rest of the string when `count` is `npos` or reaches past the end, and otherwise exactly `count` characters. |
| Strings.Words | RayTracing/Assets/headers/mesh.h:362-363 | Word extraction with `>>` produces only non-empty, whitespace-free words. |
| Strings.Stoi | RayTracing/Assets/headers/mesh.h:523 | Any value `std::stoi` returns lies in the 32-bit `int` range. |
| Strings.StoiOfDecimal | RayTracing/Assets/headers/mesh.h:523 | Round trip: `stoi` of a number's decimal digits gives back the number, for every number up to `INT_MAX`. |
| Strings.StoiOfDigitsThen | RayTracing/Assets/headers/mesh.h:535 | `stoi` reads only the leading digits: anything after the first non-digit (such as "/12") does not change its value. |
| Strings.ParseRealOfDecimal | RayTracing/Assets/headers/mesh.h:490 | Round trip: decoding the decimal digits of a whole number with `>>` into a float gives back that number. |
| Strings.StrLessIrreflexive | RayTracing/Assets/headers/mesh.h:456-462 | The key order of `std::map<std::string, …>` is irreflexive. |
| Strings.StrLessTransitive | RayTracing/Assets/headers/mesh.h:456-462 | The key order is transitive. |
| Strings.StrLessTotal | RayTracing/Assets/headers/mesh.h:456-462 | The key order is total on distinct strings, so map iteration order is determined. |
| Strings.InsertSorted | RayTracing/Assets/headers/mesh.h:456-462 | Inserting a new key into an ordered key list keeps it strictly ordered, adds exactly one element, and adds exactly that key. |
| Strings.SortedKeys | RayTracing/Assets/headers/mesh.h:456-462 | The keys of a map in iteration order: strictly increasing, each key of the map exactly once, and nothing else. |
| Vectors.ApplyMul | RayTracing/src/rayTracing.cpp:713 | Applying the product `rotZ * rotY * rotX` to a vector equals applying the factors one after another, right-hand factor first. |
| Triangles.MakeRTX | RayTracing/Assets/headers/mesh.h:123-126 | The `RTXTriangle` constructor keeps the three points (each widened with `w = 0`), the three texture coordinates and the material index it is given. |
| Triangles.MakeBVH | RayTracing/Assets/headers/mesh.h:148-153 | The `BVHTriangle` constructor:<br>• `min`/`max` bound every vertex;<br>• each of their coordinates is some vertex's coordinate;<br>• `center` is the mean of the three vertices. |
| Triangles.MakeBVHOrderFree | RayTracing/Assets/headers/mesh.h:148-153 | The BVH record does not depend on the order of the vertices. |
| Triangles.MakeBVHOrdered | RayTracing/Assets/headers/mesh.h:150-151 | Every constructed BVH triangle has `min <= max` on each axis. |
| Triangles.ParallelAppend | RayTracing/src/rayTracing.cpp:438-445 | Appending a parallel pair of render/BVH buffers to a parallel pair keeps the two buffers parallel: same length, and entry `k` of the BVH buffer is built from render triangle `k`. |
| Triangles.Bounds | RayTracing/src/rayTracing.cpp:354-356 | The scene bounds (a `BoundingBox` grown by every BVH triangle) hold every triangle of the buffer. |
| Triangles.BoundsLeast | RayTracing/src/rayTracing.cpp:354-356 | The scene bounds are the least box that holds every triangle. |
| Triangles.BoundsAppend | RayTracing/src/rayTracing.cpp:354-356 | The bounds of two buffers one after the other are the union of their bounds. |
| Triangles.BoundsSwap | RayTracing/src/rayTracing.cpp:354-356 | The bounds do not depend on the order in which two parts of the buffer come. |
| Triangles.BoundsTwice | RayTracing/src/rayTracing.cpp:346-349 | Inserting the same triangles twice (as `addSkyLightPlane` does) leaves the bounds unchanged. |
| Triangles.BoundsOrdered | RayTracing/src/rayTracing.cpp:358 | The bounds of well-formed triangles are ordered, so `size()` is non-negative. |
| Materials.KindCode | RayTracing/Assets/headers/mesh.h:16-22 | The material-type constants are 0 to 6. |
| Materials.KindCodeInjective | RayTracing/Assets/headers/mesh.h:16-22 | Distinct material types have distinct codes. |
| Materials.Fresh | RayTracing/Assets/headers/mesh.h:26-47 | `Material()` is a white diffuse material with texture -1 and no edge highlight. `index` and the emission fields stay unset. |
| Materials.TransitionsInitialise | RayTracing/Assets/headers/mesh.h:26-102 | `Material()` and every `make*`/`addSpecular` leave a material of the type they are named after, whatever it was before. Every field that type is shaded with holds a value: specular tint, smoothness and probability; emission colour and strength; checker scale; refractive index. `makeTextured` needs a real slot, and only then is its texture index initialised. |
| MtlParser.TextureSlots | RayTracing/Assets/headers/mesh.h:306-318 | Every texture file name gets a slot. A name's slot is a position in the listing that holds that name, and it is the last such position, because later duplicates overwrite earlier ones. |
| MtlParser.Step | RayTracing/Assets/headers/mesh.h:352-451 | One MTL line:<br>• the material counter advances only on `newmtl`;<br>• materials other than the current one are unchanged and none disappears;<br>• lines other than `newmtl` keep the current name;<br>• a failure can only come from `Kd`, `Ke` or `map_Kd`.<br>The effect of each directive is stated by the rule lemmas below: `NewmtlNumbers`, `KdRule`, `KeRule`, `GlassHighlightRule`, `EdgeHighlightRule`, `MapKdRule` and `UntexturableKinds`. |
| MtlParser.NewmtlNumbers | RayTracing/Assets/headers/mesh.h:365-371 | `newmtl` always succeeds. It selects the named material and stores a fresh material numbered with the next counter value. |
| MtlParser.KdRule | RayTracing/Assets/headers/mesh.h:372-377 | `Kd` always succeeds on three decoded components. It sets the current material's colour to them (with `w = 0`) and keeps its type, index, texture and emission. |
| MtlParser.ParseMtlCounter | RayTracing/Assets/headers/mesh.h:352-451 | After a whole file, the counter has advanced by exactly the number of `newmtl` lines. |
| MtlParser.KeRule | RayTracing/Assets/headers/mesh.h:378-398 | `Ke` with a positive component makes the material a light, with the emission colour and the luminance `0.299r + 0.587g + 0.114b` as its strength. Otherwise the type is kept and the emission colour is stored with strength 0. Either way the index and the colour are kept. |
| MtlParser.GlassHighlightRule | RayTracing/Assets/headers/mesh.h:416-424 | `GlassHighlight` always succeeds. A material that is not a light becomes a glass highlight of its current colour, keeping its index and texture. A light is left exactly as it was. |
| MtlParser.EdgeHighlightRule | RayTracing/Assets/headers/mesh.h:425-429 | `EDGE_HIGHLIGHT` always succeeds and sets the edge-highlight flag to 1, whatever the material's type. It keeps the type, index and colour. |
| MtlParser.MapKdRule | RayTracing/Assets/headers/mesh.h:430-450 | On a texturable material, `map_Kd` of a known texture file makes the material `TEXTURE` with that file's slot. An unknown file aborts the load. |
| MtlParser.UntexturableKinds | RayTracing/Assets/headers/mesh.h:430-450 | Lights, glass and glass-highlight materials never become textured. On them `map_Kd` leaves the whole state unchanged, so it cannot fail even for an unknown file. |
| MtlParser.LightSticky | RayTracing/Assets/headers/mesh.h:372-450 | No directive other than `newmtl` turns a light back into another type. |
| MtlParser.LightPersists | RayTracing/Assets/headers/mesh.h:352-451 | A material that has become a light stays a light for the rest of the file, up to the next `newmtl`. |
| MtlParser.StepIndexed | RayTracing/Assets/headers/mesh.h:365-370 | Each line keeps the per-file numbering invariant: every assigned index lies above the file's starting counter and at most the current counter, no two materials share one, and every named material has one. |
| MtlParser.ParseMtlIndexed | RayTracing/Assets/headers/mesh.h:352-451 | The whole file keeps the numbering invariant. |
| MtlParser.StepInitialised | RayTracing/Assets/headers/mesh.h:365-450 | No MTL directive leaves a stored material with a field of its type unset, given texture slots that are real positions. |
| MtlParser.ParseMtlInitialised | RayTracing/Assets/headers/mesh.h:352-451 | A whole MTL file keeps every stored material initialised for its type. |
| MtlParser.IsLibraryFileShape | RayTracing/Assets/headers/mesh.h:331-339 | A folder entry is read as a library exactly when it is a dot-free stem followed by `.mtl`. Names like "a.b.mtl" are skipped. |
| MtlParser.LoadFile | RayTracing/Assets/headers/mesh.h:328-453 | A folder entry:<br>• a name without '.' aborts with `MissingExtension`;<br>• non-library or unreadable files change nothing;<br>• a library file adds or replaces only its own entry in the table. |
| MtlParser.MissingExtensionAborts | RayTracing/Assets/headers/mesh.h:331-336 | Any dot-free name anywhere in the folder listing aborts the whole library loop. |
| MtlParser.LoadLibrariesCounter | RayTracing/Assets/headers/mesh.h:326-453 | After the folder loop, the material counter equals the number of `newmtl` lines in the readable library files. |
| MtlParser.DefaultSurvives | RayTracing/Assets/headers/mesh.h:321-324 | The `_default_` library with its index-0 default material survives the folder loop. |
| MtlParser.LoadLibrariesWellIndexed | RayTracing/Assets/headers/mesh.h:321-453 | Across all library files, assigned indices lie in `0..counter`, no two materials of any libraries share one, and every named material has one. |
| MtlParser.LoadLibrariesInitialised | RayTracing/Assets/headers/mesh.h:321-453 | Across all library files, and the default library, every stored material is initialised for its type. |
| MtlParser.AppendLibrary | RayTracing/Assets/headers/mesh.h:458-461 | The inner flattening loop:<br>• appends one material per entry of the library;<br>• keeps the earlier entries;<br>• tags each new material with its library and name;<br>• covers every name, in increasing name order. |
| MtlParser.FlattenedStep | RayTracing/Assets/headers/mesh.h:456-462 | One library of the outer loop keeps the flattening invariant: sorted, complete so far, and every entry drawn from the table. |
| MtlParser.Flatten | RayTracing/Assets/headers/mesh.h:456-462 | The material buffer lists every `(library, material)` pair of the table exactly once, in map order (libraries first, then names). Each entry is the table's material for that pair. |
| ObjParser.Lookup | RayTracing/Assets/headers/mesh.h:523 | `list[stoi(text) - 1]` succeeds exactly when the text decodes to an index from 1 to the list's length. Its value is that 1-based entry. |
| ObjParser.ResolveToken | RayTracing/Assets/headers/mesh.h:516-589 | A vertex token resolves to the position its first field indexes. It gets the texture coordinate its second field indexes when the layout has one, and zero otherwise. |
| ObjParser.MaterialOf | RayTracing/Assets/headers/mesh.h:592-600 | `libToMtlMaps.at(lib).at(name)` succeeds exactly when the pair is in the table; otherwise the load aborts with that pair. |
| ObjParser.AssembleOutcome | RayTracing/Assets/headers/mesh.h:592-608 | A face succeeds exactly when its three tokens resolve and its material exists. Positions are used in input order. Texture coordinates are rotated: slot 0 takes vertex 1's, slot 1 vertex 2's and slot 2 vertex 0's. |
| ObjParser.BuildFace | RayTracing/Assets/headers/mesh.h:499-609 | A face line that loads has exactly three spaces. Its BVH triangle is built from its render triangle, all `w` are 0, and the material index is that of the current material. |
| ObjParser.EncodingOfLayouts | RayTracing/Assets/headers/mesh.h:509-570 | The slash count and the `"//"` test tell the four layouts `p`, `p/t`, `p/t/n` and `p//n` apart correctly. |
| ObjParser.LayoutTexts | RayTracing/Assets/headers/mesh.h:529-566 | The `find('/')`/`substr` arithmetic recovers the position text and texture text of each layout exactly. |
| ObjParser.FaceLineSplits | RayTracing/Assets/headers/mesh.h:501-508 | A line `f a b c` with clean tokens has three spaces and splits into `f, a, b, c` both ways: with `split(line, ' ')` and with `>>`. |
| ObjParser.TexturedFace | RayTracing/Assets/headers/mesh.h:529-540 | A `p/t` face loads exactly when every position and texture index is in range and the material exists. It uses those positions in order and the texture coordinates rotated. |
| ObjParser.NormalFace | RayTracing/Assets/headers/mesh.h:558-568 | A `p//n` face loads exactly when every position is in range and the material exists. Its texture coordinates are all zero. |
| ObjParser.FaceLayoutsAgree | RayTracing/Assets/headers/mesh.h:529-568 | The same face written `p/t` and `p//n`: whenever the first loads, the second loads too, with the same geometry, BVH entry and material. |
| ObjParser.Step | RayTracing/Assets/headers/mesh.h:471-610 | One OBJ line only ever appends to the buffers. A face line appends exactly its render triangle and its BVH triangle; every other line leaves the buffers alone. A `v` line adds one vertex. |
| ObjParser.ParseObjAppends | RayTracing/Assets/headers/mesh.h:471-610 | The whole OBJ file appends one triangle per face line to each buffer. The two buffers stay parallel, and every new material index is a table material's index. |
| ObjParser.ParseObjParallel | RayTracing/Assets/headers/mesh.h:471-610 | Parallel buffers stay parallel through the OBJ loop. |
| Loader.FlattenFacts | RayTracing/Assets/headers/mesh.h:456-462 | The flattened buffer holds the default material, resolves every material index of the table, and has no index twice. |
| Loader.LoadModel | RayTracing/Assets/headers/mesh.h:279-613 | The load fails in this order:<br>• with no `.obj` file it fails with `ObjNotFound`;<br>• otherwise with the library loop's error;<br>• otherwise with the OBJ loop's error.<br>It succeeds exactly when neither loop fails. On success:<br>• the caller's buffers become the ones the OBJ loop builds against the loaded library table. They are only appended to, by one render and one BVH triangle per face line, kept parallel;<br>• the new materials are the table's entries in map order, each exactly once and each initialised for its type;<br>• every new triangle's material index names exactly one of them, and the default material is among them;<br>• the texture slots are as listed. |
| SceneGen.Piece | RayTracing/src/rayTracing.cpp:419-428 | Building triangles from a corner list and an index table gives one untextured render triangle per row, with its own material and those corners, and the BVH triangle built from the same corners. |
| SceneGen.Then | RayTracing/src/rayTracing.cpp:438-445 | Inserting one piece after another keeps the buffers parallel, and each piece stays in place. |
| SceneGen.TablesLabelled | RayTracing/src/rayTracing.cpp:395-409 | Every row of the four wall tables picks three corners of one face of the box, so each wall triangle lies in its wall's plane. |
| SceneGen.TablesCover | RayTracing/src/rayTracing.cpp:784-797 | The two rows of each face use all four of that face's corners, so each wall is covered completely. |
| SceneGen.PaddedContains | RayTracing/src/rayTracing.cpp:359-364 | A non-negative pad gives an ordered room that contains the scene bounds. |
| SceneGen.PaddedHoldsScene | RayTracing/src/rayTracing.cpp:354-364 | Every triangle already in the scene lies inside the padded room. |
| SceneGen.AddSkyLightPlane | RayTracing/src/rayTracing.cpp:306-350 | Adds four light triangles over the scene's footprint at `maxY + 0.3 * size.y`, kept parallel and untextured. The last two repeat the first two. |
| SceneGen.SkyOverScene | RayTracing/src/rayTracing.cpp:313-330 | The sky plane lies above every scene triangle, and its footprint covers each of them. |
| SceneGen.AddCornellBox | RayTracing/src/rayTracing.cpp:352-446 | The corrected box. It adds:<br>• 12 untextured material-0 walls on the faces of the padded room;<br>• when the light is enabled, 4 light triangles on the ceiling quad, 1e-3 below the top, of half-size `lightSize * boxSize / 2`.<br>All BVH entries belong to their render triangles. |
| SceneGen.CornellLightInside | RayTracing/src/rayTracing.cpp:378-393 | For `0 <= lightSize <= 1` the ceiling light lies within the room's X/Z extent. |
| SceneGen.CornellLightBvhAsWritten | RayTracing/src/rayTracing.cpp:434-436 | The light's BVH entries as written, through the first four wall-table rows. The first two coincide with those of the light table. |
| SceneGen.CornellWallRowsReach | RayTracing/src/rayTracing.cpp:434-436 | The wall-table rows used there need at least six corners; the light has only four. |
| SceneGen.CornellLightBvhMismatch | RayTracing/src/rayTracing.cpp:434-436 | Even given six corners, the as-written BVH entries do not belong to the light's render triangles, so the buffers are not parallel. |
| SceneGen.AddMirrorCornellBox | RayTracing/src/rayTracing.cpp:449-544 | Adds 12 mirror walls on the faces of the padded room, then a 2-triangle ceiling light. The light has half-size `lightSize * sceneSize.y / 2` and is centred 1e-3 below the top. |
| SceneGen.SideLights | RayTracing/src/rayTracing.cpp:573-633 | Two 2-triangle lights, each a square at mid-height 1e-3 inside the room. They sit on the min-X and max-X walls, or with `rotate` on the max-Z and min-Z walls. |
| SceneGen.SideLightsInside | RayTracing/src/rayTracing.cpp:573-633 | Once the room is wider than 2e-3, the side lights' fixed coordinate lies strictly inside the room. |
| SceneGen.AddSideLitCornellBox | RayTracing/src/rayTracing.cpp:547-703 | Adds 12 walls of the wall material on the padded room's faces, then the four side-light triangles. |
| SceneGen.AddCube | RayTracing/src/rayTracing.cpp:706-762 | Adds 12 untextured triangles of the given material, with BVH entries parallel. |
| SceneGen.CubeRotationOrder | RayTracing/src/rayTracing.cpp:709-733 | Each cube corner is rotated about X first, then Y, then Z, and translated last. |
| SceneGen.AddCubeUnrotated | RayTracing/src/rayTracing.cpp:715-760 | Without rotation, the cube's triangles lie pairwise on the six faces of the box `center ± size / 2`. |
| SceneGen.CreateClassicCornellBox | RayTracing/src/rayTracing.cpp:765-857 | Adds 38 triangles:<br>• 8 white walls, 2 red (left), 2 green (right), on the faces of the cube of side `roomSize`;<br>• a 2-triangle light 0.001 below the ceiling, with the 130/555 by 105/555 proportions;<br>• two white cubes of 12 triangles each. |
| SceneGen.ClassicBoxesOnFloor | RayTracing/src/rayTracing.cpp:838-856 | When their turns keep the Y axis fixed, both classic boxes stand exactly on the floor `y = -roomSize / 2`. |
| SceneGen.DiverseCubes | RayTracing/src/rayTracing.cpp:876-901 | The nine extra cubes carry, in order: glass, mirror, checker, metal, glass, mirror, mirror, checker, metal. |
| SceneGen.CreateDiverseCornellBox | RayTracing/src/rayTracing.cpp:860-907 | Adds the classic box unchanged, then 9 cubes of 12 triangles each (146 in all), each block of the right material. |
| Random.StepBijective | external/math/random.h:6 | The state update `state * 747796405 + 2891336453` modulo 2^32 has an inverse. It is a bijection on 32-bit states, so no two states share a successor. |
| Random.StepInjective | external/math/random.h:6 | Two states have the same successor exactly when they are equal. |
| Random.Shift | external/math/random.h:7 | The data-dependent shift `(state >> 28) + 4` lies between 4 and 19, so the shift is defined on a 32-bit word. |
| Random.Fraction | external/math/random.h:9 | `result / 4294967295.0` lies in [0, 1]. It is 1 exactly for the hash 2^32 - 1 and 0 exactly for the hash 0. |
| Random.NextRandom | external/math/random.h:4-10 | `random` advances the state by one update and returns a value in [0, 1]. The value is 1 exactly when the new state's hash is 2^32 - 1. |
| Random.NextRandomDeterministic | external/math/random.h:4-10 | Draws that leave the same state behind started from the same state and returned the same value. |
| Random.RandomFloat | external/math/random.h:12-15 | `randomFloat` advances the state once and lies in `[min, max]` when `min <= max`. It equals `max` exactly when the range is empty or the hash is the top one. |
| Random.RandomInt | external/math/random.h:17-20 | `random_int` lies in `[min, max]`, both ends inclusive. For `min < max` it returns `max` exactly when the hash is the top one. |
| Random.TopReachable | external/math/random.h:17-20 | For every `min < max`, some state makes `random_int` return `max` itself. |
| Random.MaxHashStateHashesToMax | external/math/random.h:7-8 | The state 0x1EBFA108 hashes to 2^32 - 1. |
| Perlin.Permute | include/perlin/perlin3D.h:8-15 | The shuffle returns a rearrangement of its input (the same multiset). Its last entry is the one the first draw picked; arrays of at most one entry are unchanged. |
| Perlin.RangeCounts | include/perlin/perlin3D.h:20-21 | In `0, 1, …, n-1` every value below `n` occurs exactly once and nothing else occurs. |
| Perlin.PermutationEntries | include/perlin/perlin3D.h:17-26 | A permutation of `0..n-1` has every entry in range, no entry twice, and every value present. |
| Perlin.GeneratePerm | include/perlin/perlin3D.h:17-26 | `generate_perm(n)` is a permutation of `0..n-1`: entries in range and pairwise distinct. |
| Perlin.BuildTable | include/perlin/perlin3D.h:34-37 | The table has 512 entries with `perm[i] == permutation[i % 256]`; both halves are the permutation. |
| Perlin.NewTable | include/perlin/perlin3D.h:30-38 | The constructor's table is valid and repeats with period 256, and its first half is a permutation of `0..255`. |
| Perlin.Lattice | include/perlin/perlin3D.h:50 | `floor(x) & 255` lies in 0..255. |
| Perlin.LatticePeriodic | include/perlin/perlin3D.h:50 | The lattice cell repeats every 256 units. |
| Perlin.LatticeInRange | include/perlin/perlin3D.h:50 | On [0, 256) the lattice cell is `floor(x)`. |
| Perlin.CornerHash3 | include/perlin/perlin3D.h:60-67 | The nested lookup `perm[perm[perm[xi+dx] + yi+dy] + zi+dz]` stays inside the 512-entry table and yields a value in 0..255. |
| Perlin.Corners3 | include/perlin/perlin3D.h:60-67 | The eight corner hashes, in the source's order: corner `c` is offset by bit 0 of `c` in x, bit 1 in y and bit 2 in z. |
| Perlin.Corners3Periodic | include/perlin/perlin3D.h:50-67 | The 3D corner hashes repeat every 256 units along x. |
| Perlin.CornerHash2 | external/perlin/perlin2D.h:34-37 | The 2D nested lookup stays inside the table and yields a value in 0..255. |
| Perlin.Corners2 | external/perlin/perlin2D.h:27-37 | The four 2D corner hashes in the order `aa, ba, ab, bb`. |
| Perlin.Corners2Periodic | external/perlin/perlin2D.h:27-37 | The 2D corner hashes repeat every 256 units along both axes. |
| Perlin.Grad3 | include/perlin/perlin3D.h:107-129 | The 3D gradient is one of the twelve sums `±a ± b` of two of the coordinates. |
| Perlin.GradVector3 | include/perlin/perlin3D.h:107-129 | The gradient vector the hash selects has components in {-1, 0, 1} and squared length 2. |
| Perlin.Grad3IsDot | include/perlin/perlin3D.h:107-129 | `grad(hash, x, y, z)` is the dot product of the selected gradient vector with `(x, y, z)`. |
| Perlin.Grad3LowBits | include/perlin/perlin3D.h:109 | Only the low four bits of the hash matter. |
| Perlin.Grad2 | external/perlin/perlin2D.h:87-95 | The 2D gradient is one of `x, -x, y, -y`. |
| Perlin.GradVector2 | external/perlin/perlin2D.h:87-95 | The selected 2D gradient vector has unit length. |
| Perlin.Grad2IsDot | external/perlin/perlin2D.h:87-95 | `grad(hash, x, y)` is the dot product of the selected unit vector with `(x, y)`. |
| Perlin.Cells | external/perlin/perlin2D.h:107-109 | The fill writes `width * height` cells when both are positive, and none otherwise. |
| Perlin.FillRow | external/perlin/perlin2D.h:109-112 | One row: each of its cells gets the sample at `(i * dx, y)`, and every cell outside the row is unchanged. |
| Perlin.NextRow | external/perlin/perlin2D.h:107-115 | Finishing row `j` extends the rows done to `j + 1`. |
| Perlin.GetPerlinMap | external/perlin/perlin2D.h:98-116 | `getPerlinMap`:<br>• writes exactly the indices `0 … width*height - 1`, in row-major order, each once and all inside the grid;<br>• cell `(i, j)` receives the sample at `(i * dx, j * dy)`;<br>• every other cell keeps its value. |

## Left out

- **File-system and stream access** (`findFirstObjFile`, `getFilenamesInFolder`, `ifstream`) is replaced by its results, which are parameters of `Loader.LoadModel`: the texture listing, the folder entries with their lines, and the first `.obj` file's lines. The order `directory_iterator` yields files in is not modelled; the listing's order is taken as given.
- **MTL lines of 256 characters or more** are parsed whole by the model. In the source, `getline(line, 256)` (mesh.h:357) stores only 255 characters of such a line and sets the stream's failbit. Every later `getline` then reads nothing and never reaches end of file, so `while (!mtlFileStream.eof())` (mesh.h:352) never ends. The model describes only files whose lines are shorter.
- **Number decoding** covers an optional sign, digits, and an optional fraction. Exponent notation, and values a failed `>>` would leave behind (zero or the old value), are reported as `Undecodable` instead.
- **Fields the `Material` constructor leaves uninitialised** are `None`. Texture coordinates of faces without a texture layout are zero (`glm::vec2()`), where the C++ leaves `triangleTexCoords` uninitialised.
- **Loading textures into GL** (`Texture2D`) is left out; a texture is represented by its slot.
- **Undefined behaviour of unchecked accesses**: out-of-range vertex or texture indices, a face line without tokens, and similar cases become `Err` values. The C++ reads out of bounds there.
- **The empty `BoundingBox`** (±infinity) is left out. Every generator that reads the scene bounds requires a non-empty BVH buffer.
- **The floating-point values of `noise`, `octaves`, `fade`, `lerp` and `norm`** are left out. `getPerlinMap` takes the per-cell sampler as a parameter, and the model proves the integer side (table, lattice, corner hashes, gradients) and the fill pattern.
- Perlin.GetPerlinMap: the running sums `x += dx` and `y += dy` are modelled as the exact products `i * dx` and `j * dy`, without float rounding. `frequency / 0` for a zero width or height is not modelled either, because no cell is written then.
- Random.Fraction, Random.NextRandom, Random.RandomFloat, Random.RandomInt: the results are exact reals, not `float`, so "1 exactly for the hash 2^32 - 1" and "`max` exactly when the hash is the top one" hold for the real-valued model only. In `float`, the hashes from 2^32 - 128 up all round to 1.0f. `random_int` also passes its `int` bounds through `float`, so for bounds beyond 2^24 the result can fall outside `[min, max]`.
- **The two-argument `random_int(0, i)` the Perlin shuffle calls** is not the three-argument function in `random.h`, and its definition is not available. Its results are a sequence of draws, each in `[0, i]`.
- **`perlin2D.h` repeats** `permute`, `generate_perm` and the table construction from `perlin3D.h`. The same members model both copies.
- **`static_cast<int>(floor(x))` overflow** for huge coordinates is not modelled; `Lattice` takes the mathematical floor.
- SceneGen.AddCube: `glm::rotate` is an abstract parameter mapping an angle and an axis to a 3×3 matrix, not the trigonometric rotation. The cube's corners, the composition order and the unrotated geometry are proved; the rotated geometry is stated only through that parameter.
- SceneGen.ClassicBoxesOnFloor: "on the floor" is proved for rotations that keep the Y axis fixed (a turn about Y does). It is not proved for the concrete `glm::rotate` matrices.
- Strings.SplitStr: requires a non-empty delimiter. With an empty delimiter, `find` returns the same position on every round of mesh.h:177-196, so the source never ends.
- **Float rounding in the generators** (`padPercentage`, `1e-3f`, the 130/555 proportions) is modelled on exact reals.
- **`BVHTriangle.index`** is never set by this code and is left out, as are the padding float of `RTXTriangle` and the `print` helpers.
- **`Sphere`, `strStreamToString`, and the renderer outside the named generators** (window, GL, camera, BVH construction) are not part of this model.

## Findings

| source | as written | input that shows it | evidently intended | confidence | as-written member | corrected member |
|---|---|---|---|---|---|---|
| RayTracing/src/rayTracing.cpp:434-436 | The ceiling light's BVH triangles index the 4-element `lightCorners` through rows 0–3 of the wall table `triCornersIndicies`. Rows 2 and 3 are `{0,5,4}` and `{0,1,5}`, so they read corners 4 and 5, which do not exist. | Any call with `lightEnabled`. The reads `lightCorners[5]` and `lightCorners[4]` are out of bounds; `CornellWallRowsReach` shows the rows fit only six or more corners. Even given six corners (`MismatchCorners`), BVH entry 2 spans corners 0, 5 and 4 while render triangle 2 spans 0, 1 and 3. | The BVH entries use the light table `lightCornersIndicies`, like the render triangles built just above, so that the BVH buffer stays parallel to the render buffer. | not executed | SceneGen.CornellLightBvhAsWritten | SceneGen.AddCornellBox |
