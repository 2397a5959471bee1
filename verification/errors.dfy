/** Why loading a model directory stops. Every error aborts the whole load. */
module Errors {

  datatype LoadError =
      /** The model folder holds no `.obj` file (`runtime_error("OBJ file not found")`). */
      ObjNotFound
      /** A folder entry without '.' (the loader throws `errno`). */
    | MissingExtension(fileName: string)
      /** `map_Kd` names a file that is not in `textures/`. */
    | UnknownTexture(textureName: string)
      /** A numeric field that does not decode (see the decoders in `Strings`). */
    | Undecodable(token: string)
      /** A face line that does not hold exactly three spaces. */
    | NonTriangleFace(line: string)
      /** A face line with no vertex token after `f` (the source indexes past the token vector). */
    | MissingVertexToken(line: string)
      /** A 1-based vertex or texture index outside the list read so far (unchecked `operator[]` in the source). */
    | IndexOutOfRange(index: int)
      /** The `(library, material)` pair a face uses is not in the library table. */
    | MaterialNotFound(library: string, material: string)
}
