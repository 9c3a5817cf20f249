/** The part of the OpenGL 3.3 core profile the renderer talks to, as plain data.
    A GL call has no result the model can see, so each call becomes one
    `Command` value; an operation's effect on the GL is the list of commands
    it issues, in order. The enumerant values are those of the OpenGL 3.3
    core registry. */
module Gl {

  /** C++ `unsigned int` / `GLuint`: object names handed out by the GL. */
  newtype uint32 = x: int | 0 <= x < 0x1_0000_0000

  // Texture targets and units
  const Texture2D: int := 0x0DE1                 // GL_TEXTURE_2D
  const TextureCubeMap: int := 0x8513            // GL_TEXTURE_CUBE_MAP
  const TextureCubeMapPositiveX: int := 0x8515   // GL_TEXTURE_CUBE_MAP_POSITIVE_X
  const TextureCubeMapNegativeX: int := 0x8516   // GL_TEXTURE_CUBE_MAP_NEGATIVE_X
  const TextureCubeMapPositiveY: int := 0x8517   // GL_TEXTURE_CUBE_MAP_POSITIVE_Y
  const TextureCubeMapNegativeY: int := 0x8518   // GL_TEXTURE_CUBE_MAP_NEGATIVE_Y
  const TextureCubeMapPositiveZ: int := 0x8519   // GL_TEXTURE_CUBE_MAP_POSITIVE_Z
  const TextureCubeMapNegativeZ: int := 0x851A   // GL_TEXTURE_CUBE_MAP_NEGATIVE_Z
  const Texture0: int := 0x84C0                  // GL_TEXTURE0

  // Pixel formats and data types
  const Red: int := 0x1903                       // GL_RED
  const Rgb: int := 0x1907                       // GL_RGB
  const Rgba: int := 0x1908                      // GL_RGBA
  const UnsignedByte: int := 0x1401              // GL_UNSIGNED_BYTE
  const UnsignedInt: int := 0x1405               // GL_UNSIGNED_INT

  // Texture parameters and their values
  const TextureMagFilter: int := 0x2800          // GL_TEXTURE_MAG_FILTER
  const TextureMinFilter: int := 0x2801          // GL_TEXTURE_MIN_FILTER
  const TextureWrapS: int := 0x2802              // GL_TEXTURE_WRAP_S
  const TextureWrapT: int := 0x2803              // GL_TEXTURE_WRAP_T
  const TextureWrapR: int := 0x8072              // GL_TEXTURE_WRAP_R
  const Linear: int := 0x2601                    // GL_LINEAR
  const LinearMipmapLinear: int := 0x2703        // GL_LINEAR_MIPMAP_LINEAR
  const Repeat: int := 0x2901                    // GL_REPEAT
  const ClampToEdge: int := 0x812F               // GL_CLAMP_TO_EDGE

  // Primitive modes
  const Triangles: int := 0x0004                 // GL_TRIANGLES

  /** One call into the GL (or into `Shader::setInt`, which is a uniform upload
      on the given program). */
  datatype Command =
    | ActiveTexture(textureUnit: int)
    | Uniform1i(program: uint32, name: string, value: int)
    | BindTexture(target: int, texture: uint32)
    | BindVertexArray(vao: uint32)
    | DrawElements(mode: int, count: nat, indexType: int)
    | TexImage2D(target: int, internalFormat: int, width: int, height: int, format: int, dataType: int)
    | GenerateMipmap(target: int)
    | TexParameteri(target: int, pname: int, param: int)
}
