/**
 * The WebGL enumeration values the engine compares against and passes on.
 * The values are the ones published for WebGL 1.0 and WebGL 2.0 and their extensions.
 */
module GL {
  // primitive modes
  const POINTS := 0x0000
  const LINES := 0x0001
  const TRIANGLES := 0x0004

  // capabilities and winding
  const BLEND := 0x0BE2
  const CULL_FACE := 0x0B44
  const DEPTH_TEST := 0x0B71

  // data types
  const BYTE := 0x1400
  const UNSIGNED_BYTE := 0x1401
  const SHORT := 0x1402
  const UNSIGNED_SHORT := 0x1403
  const INT := 0x1404
  const UNSIGNED_INT := 0x1405
  const FLOAT := 0x1406
  const HALF_FLOAT := 0x140B
  const HALF_FLOAT_OES := 0x8D61
  const UNSIGNED_INT_24_8_WEBGL := 0x84FA

  // pixel formats
  const DEPTH_COMPONENT := 0x1902
  const RGB := 0x1907
  const RGBA := 0x1908
  const DEPTH_STENCIL := 0x84F9
  const DEPTH_COMPONENT16 := 0x81A5
  const DEPTH_COMPONENT24 := 0x81A6
  const DEPTH_COMPONENT32F := 0x8CAC
  const RGBA32F := 0x8814
  const RGB32F := 0x8815
  const RGBA16F := 0x881A
  const RGB16F := 0x881B
  const RGBA4 := 0x8056

  // buffers
  const ARRAY_BUFFER := 0x8892
  const ELEMENT_ARRAY_BUFFER := 0x8893
  const STATIC_DRAW := 0x88E4

  // textures
  const TEXTURE_2D := 0x0DE1
  const TEXTURE_CUBE_MAP := 0x8513
  const TEXTURE_CUBE_MAP_POSITIVE_X := 0x8515
  const TEXTURE_CUBE_MAP_NEGATIVE_X := 0x8516
  const TEXTURE_CUBE_MAP_POSITIVE_Y := 0x8517
  const TEXTURE_CUBE_MAP_NEGATIVE_Y := 0x8518
  const TEXTURE_CUBE_MAP_POSITIVE_Z := 0x8519
  const TEXTURE_CUBE_MAP_NEGATIVE_Z := 0x851A
  const TEXTURE0 := 0x84C0
  const TEXTURE_MAG_FILTER := 0x2800
  const TEXTURE_MIN_FILTER := 0x2801
  const TEXTURE_WRAP_S := 0x2802
  const TEXTURE_WRAP_T := 0x2803
  const TEXTURE_WRAP_R := 0x8072
  const UNPACK_FLIP_Y_WEBGL := 0x9240

  // filters and wrap modes
  const NEAREST := 0x2600
  const LINEAR := 0x2601
  const NEAREST_MIPMAP_NEAREST := 0x2700
  const LINEAR_MIPMAP_NEAREST := 0x2701
  const NEAREST_MIPMAP_LINEAR := 0x2702
  const LINEAR_MIPMAP_LINEAR := 0x2703
  const REPEAT := 0x2901
  const CLAMP_TO_EDGE := 0x812F

  // framebuffers
  const FRAMEBUFFER := 0x8D40
  const RENDERBUFFER := 0x8D41
  const COLOR_ATTACHMENT0 := 0x8CE0
  const DEPTH_ATTACHMENT := 0x8D00
  const DEPTH_STENCIL_ATTACHMENT := 0x821A
  const DRAW_FRAMEBUFFER := 0x8CA9
  const FRAMEBUFFER_COMPLETE := 0x8CD5
  const FRAMEBUFFER_INCOMPLETE_ATTACHMENT := 0x8CD6
  const FRAMEBUFFER_INCOMPLETE_MISSING_ATTACHMENT := 0x8CD7
  const FRAMEBUFFER_INCOMPLETE_DIMENSIONS := 0x8CD9
  const FRAMEBUFFER_UNSUPPORTED := 0x8CDD
  const FRAMEBUFFER_INCOMPLETE_MULTISAMPLE := 0x8D56
  const NONE := 0
  const COLOR_BUFFER_BIT := 0x4000

  // shader stages
  const FRAGMENT_SHADER := 0x8B30
  const VERTEX_SHADER := 0x8B31

  // uniform types
  const FLOAT_VEC2 := 0x8B50
  const FLOAT_VEC3 := 0x8B51
  const FLOAT_VEC4 := 0x8B52
  const INT_VEC2 := 0x8B53
  const INT_VEC3 := 0x8B54
  const INT_VEC4 := 0x8B55
  const FLOAT_MAT2 := 0x8B5A
  const FLOAT_MAT3 := 0x8B5B
  const FLOAT_MAT4 := 0x8B5C
  const SAMPLER_2D := 0x8B5E
  const SAMPLER_3D := 0x8B5F
  const SAMPLER_CUBE := 0x8B60
}
