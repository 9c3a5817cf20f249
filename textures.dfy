/** Texture loading of the demo (`loadTexture`, `loadCubemap`): the choice
    of pixel format from the decoder's channel count, the choice of wrap
    mode from the format, and the mapping of the i-th cube-map image to the
    i-th cube-map face target. Image decoding itself is not modelled: the
    decoder's answer for a file is an input (`None` when it failed). */
module Textures {
  import Gl

  datatype Option<T> = None | Some(value: T)

  /** What the decoder reports for an image it could read. */
  datatype Image = Image(width: int, height: int, channels: int)

  /** The pixel formats an image can be uploaded as. */
  datatype PixelFormat = Red | Rgb | Rgba

  /** The channel count a format stands for. */
  function Channels(f: PixelFormat): nat {
    match f
    case Red => 1
    case Rgb => 3
    case Rgba => 4
  }

  /** The GL enumerant of a format. */
  function GlFormat(f: PixelFormat): int {
    match f
    case Red => Gl.Red
    case Rgb => Gl.Rgb
    case Rgba => Gl.Rgba
  }

  /** The format `loadTexture` picks for a decoded image with `channels`
      channels; `None` for a count it has no branch for, where the source
      leaves `format` unassigned. */
  function FormatFor(channels: int): (f: Option<PixelFormat>)
    ensures f.Some? <==> channels == 1 || channels == 3 || channels == 4
    ensures f.Some? ==> Channels(f.value) == channels
  {
    if channels == 1 then Some(Red)
    else if channels == 3 then Some(Rgb)
    else if channels == 4 then Some(Rgba)
    else None
  }

  /** The wrap mode for both S and T: clamp to edge for RGBA images (so that
      transparent borders do not bleed in from the opposite side), repeat
      otherwise. */
  function WrapFor(f: PixelFormat): (w: int)
    ensures w == Gl.ClampToEdge <==> f == Rgba
    ensures w == Gl.ClampToEdge || w == Gl.Repeat
  {
    if GlFormat(f) == Gl.Rgba then Gl.ClampToEdge else Gl.Repeat
  }

  /** A format is recovered from its channel count. */
  lemma FormatForChannels(f: PixelFormat)
    ensures FormatFor(Channels(f)) == Some(f)
  {
  }

  /** Both decisions together: an image that gets a format is clamped to
      edge exactly when it has four channels. */
  lemma WrapFollowsChannels(channels: int)
    requires FormatFor(channels).Some?
    ensures WrapFor(FormatFor(channels).value) == Gl.ClampToEdge <==> channels == 4
  {
  }

  /** How a `loadTexture` call ended. */
  datatype LoadOutcome =
    | Uploaded(format: PixelFormat)
    | DecodeFailed
    | UnsupportedChannels(channels: int)

  /** The texture name returned, the GL commands issued after the name was
      generated, and how the call ended. */
  datatype TextureLoad = TextureLoad(id: Gl.uint32, commands: seq<Gl.Command>, outcome: LoadOutcome)

  /** `loadTexture`: `textureId` is the name the GL generated, `decoded` what
      the decoder made of the file. */
  function LoadTexture(textureId: Gl.uint32, decoded: Option<Image>): (r: TextureLoad)
    ensures r.id == textureId
    ensures decoded.None? ==> r.outcome == DecodeFailed && r.commands == []
    ensures decoded.Some? && FormatFor(decoded.value.channels).None? ==>
      r.outcome == UnsupportedChannels(decoded.value.channels) && r.commands == []
    ensures r.outcome.Uploaded? ==>
      decoded.Some? && Channels(r.outcome.format) == decoded.value.channels &&
      |r.commands| == 7 &&
      r.commands[0] == Gl.BindTexture(Gl.Texture2D, textureId) &&
      r.commands[1] == Gl.TexImage2D(Gl.Texture2D, GlFormat(r.outcome.format), decoded.value.width,
                                     decoded.value.height, GlFormat(r.outcome.format), Gl.UnsignedByte) &&
      r.commands[3] == Gl.TexParameteri(Gl.Texture2D, Gl.TextureWrapS, if decoded.value.channels == 4 then Gl.ClampToEdge else Gl.Repeat) &&
      r.commands[4] == Gl.TexParameteri(Gl.Texture2D, Gl.TextureWrapT, if decoded.value.channels == 4 then Gl.ClampToEdge else Gl.Repeat)
  {
    match decoded
    case None => TextureLoad(textureId, [], DecodeFailed)
    case Some(image) =>
      match FormatFor(image.channels)
      case None => TextureLoad(textureId, [], UnsupportedChannels(image.channels))
      case Some(format) =>
        var glFormat := GlFormat(format);
        var wrap := WrapFor(format);
        TextureLoad(textureId,
          [Gl.BindTexture(Gl.Texture2D, textureId),
           Gl.TexImage2D(Gl.Texture2D, glFormat, image.width, image.height, glFormat, Gl.UnsignedByte),
           Gl.GenerateMipmap(Gl.Texture2D),
           Gl.TexParameteri(Gl.Texture2D, Gl.TextureWrapS, wrap),
           Gl.TexParameteri(Gl.Texture2D, Gl.TextureWrapT, wrap),
           Gl.TexParameteri(Gl.Texture2D, Gl.TextureMinFilter, Gl.LinearMipmapLinear),
           Gl.TexParameteri(Gl.Texture2D, Gl.TextureMagFilter, Gl.Linear)],
          Uploaded(format))
  }

  /** An image is uploaded exactly when it decoded with 1, 3 or 4 channels. */
  lemma UploadedIffSupported(textureId: Gl.uint32, decoded: Option<Image>)
    ensures LoadTexture(textureId, decoded).outcome.Uploaded? <==>
      decoded.Some? && (decoded.value.channels == 1 || decoded.value.channels == 3 || decoded.value.channels == 4)
  {
  }

  // Cube maps

  /** The target of the i-th cube-map image: the cube-map face targets are
      consecutive, starting at +X. */
  function FaceTarget(i: nat): int {
    Gl.TextureCubeMapPositiveX + i
  }

  /** The six face targets in the order +X, -X, +Y, -Y, +Z, -Z. */
  const CubeFaceTargets: seq<int> := [
    Gl.TextureCubeMapPositiveX, Gl.TextureCubeMapNegativeX,
    Gl.TextureCubeMapPositiveY, Gl.TextureCubeMapNegativeY,
    Gl.TextureCubeMapPositiveZ, Gl.TextureCubeMapNegativeZ]

  /** The skybox images, in the order the demo lists them. */
  const SkyboxFaces: seq<string> := [
    "textures/skybox/right.jpg",
    "textures/skybox/left.jpg",
    "textures/skybox/top.jpg",
    "textures/skybox/bottom.jpg",
    "textures/skybox/front.jpg",
    "textures/skybox/back.jpg"]

  /** The upload of face `i`, if its image decoded: always as RGB. */
  function FaceUpload(faces: seq<string>, decode: string -> Option<Image>, i: nat): seq<Gl.Command>
    requires i < |faces|
  {
    match decode(faces[i])
    case None => []
    case Some(image) => [Gl.TexImage2D(FaceTarget(i), Gl.Rgb, image.width, image.height, Gl.Rgb, Gl.UnsignedByte)]
  }

  /** The uploads for the first `n` faces, in face order. */
  function FaceUploads(faces: seq<string>, decode: string -> Option<Image>, n: nat): seq<Gl.Command>
    requires n <= |faces|
  {
    if n == 0 then [] else FaceUploads(faces, decode, n - 1) + FaceUpload(faces, decode, n - 1)
  }

  /** The parameters set on the cube map after the faces. */
  function CubemapParameters(): seq<Gl.Command> {
    [Gl.TexParameteri(Gl.TextureCubeMap, Gl.TextureMinFilter, Gl.Linear),
     Gl.TexParameteri(Gl.TextureCubeMap, Gl.TextureMagFilter, Gl.Linear),
     Gl.TexParameteri(Gl.TextureCubeMap, Gl.TextureWrapS, Gl.ClampToEdge),
     Gl.TexParameteri(Gl.TextureCubeMap, Gl.TextureWrapT, Gl.ClampToEdge),
     Gl.TexParameteri(Gl.TextureCubeMap, Gl.TextureWrapR, Gl.ClampToEdge)]
  }

  /** `loadCubemap`: `textureId` is the name the GL generated, `decode` what
      the decoder makes of each file. Returns the name and the commands
      issued. */
  method LoadCubemap(textureId: Gl.uint32, faces: seq<string>, decode: string -> Option<Image>)
    returns (id: Gl.uint32, commands: seq<Gl.Command>)
    ensures id == textureId
    ensures commands == [Gl.BindTexture(Gl.TextureCubeMap, textureId)] + FaceUploads(faces, decode, |faces|) + CubemapParameters()
  {
    commands := [Gl.BindTexture(Gl.TextureCubeMap, textureId)];
    for i := 0 to |faces|
      invariant commands == [Gl.BindTexture(Gl.TextureCubeMap, textureId)] + FaceUploads(faces, decode, i)
    {
      var data := decode(faces[i]);
      if data.Some? {
        commands := commands + [Gl.TexImage2D(Gl.TextureCubeMapPositiveX + i, Gl.Rgb, data.value.width, data.value.height, Gl.Rgb, Gl.UnsignedByte)];
      }
    }
    commands := commands + CubemapParameters();
    id := textureId;
  }

  /** Every face whose image decoded is uploaded, to its own target, whatever
      happened to the faces before it; nothing else is uploaded. */
  lemma {:induction false} FaceUploadsMembers(faces: seq<string>, decode: string -> Option<Image>, n: nat, c: Gl.Command)
    requires n <= |faces|
    ensures c in FaceUploads(faces, decode, n) <==>
      exists i :: 0 <= i < n && decode(faces[i]).Some? &&
        c == Gl.TexImage2D(FaceTarget(i), Gl.Rgb, decode(faces[i]).value.width, decode(faces[i]).value.height, Gl.Rgb, Gl.UnsignedByte)
  {
    if n > 0 {
      FaceUploadsMembers(faces, decode, n - 1, c);
      var image := decode(faces[n - 1]);
      if image.Some? {
        var up := Gl.TexImage2D(FaceTarget(n - 1), Gl.Rgb, image.value.width, image.value.height, Gl.Rgb, Gl.UnsignedByte);
        if c == up {
          assert c in FaceUploads(faces, decode, n);
        }
      }
    }
  }

  /** The uploads go out in face order, each target at most once, and all of
      them among the first `n` targets. */
  lemma {:induction false} FaceUploadsOrdered(faces: seq<string>, decode: string -> Option<Image>, n: nat)
    requires n <= |faces|
    ensures var ups := FaceUploads(faces, decode, n);
      |ups| <= n &&
      (forall k :: 0 <= k < |ups| ==> ups[k].TexImage2D? && FaceTarget(0) <= ups[k].target < FaceTarget(n)) &&
      (forall k, l :: 0 <= k < l < |ups| ==> ups[k].target < ups[l].target)
  {
    if n > 0 {
      FaceUploadsOrdered(faces, decode, n - 1);
      var prev := FaceUploads(faces, decode, n - 1);
      var last := FaceUpload(faces, decode, n - 1);
      assert FaceUploads(faces, decode, n) == prev + last;
      assert |last| <= 1 && forall k :: 0 <= k < |last| ==> last[k].TexImage2D? && last[k].target == FaceTarget(n - 1);
    }
  }

  /** With the demo's list of skybox images, the i-th file lands on the i-th
      of +X, -X, +Y, -Y, +Z, -Z: right, left, top, bottom, front, back. */
  lemma SkyboxFaceTargets(decode: string -> Option<Image>, i: nat)
    requires i < |SkyboxFaces| && decode(SkyboxFaces[i]).Some?
    ensures FaceTarget(i) == CubeFaceTargets[i]
    ensures Gl.TexImage2D(CubeFaceTargets[i], Gl.Rgb, decode(SkyboxFaces[i]).value.width,
                          decode(SkyboxFaces[i]).value.height, Gl.Rgb, Gl.UnsignedByte)
            in FaceUploads(SkyboxFaces, decode, |SkyboxFaces|)
  {
    FaceUploadsMembers(SkyboxFaces, decode, |SkyboxFaces|,
      Gl.TexImage2D(CubeFaceTargets[i], Gl.Rgb, decode(SkyboxFaces[i]).value.width,
                    decode(SkyboxFaces[i]).value.height, Gl.Rgb, Gl.UnsignedByte));
  }
}
