/** A mesh of the model loader (`class Mesh`): vertex data, triangle
    indices and the textures to sample, and the draw call that binds each
    texture to a texture unit and points a `material.*` sampler uniform at
    that unit. Buffer and vertex-array setup is not modelled: the mesh is
    given the vertex-array object name it was set up with. */
module Mesh {
  import opened Gl
  import opened Vectors
  import opened Decimal

  datatype Vec2 = Vec2(x: real, y: real)

  /** `MAX_BONE_INFLUENCE`: bone slots per vertex. */
  const MaxBoneInfluence: nat := 4

  /** The fixed-size `m_BoneIDs` and `m_Weights` arrays of a vertex. */
  type BoneIds = s: seq<int> | |s| == MaxBoneInfluence witness [0, 0, 0, 0]
  type BoneWeights = s: seq<real> | |s| == MaxBoneInfluence witness [0.0, 0.0, 0.0, 0.0]

  /** `struct Vertex`. */
  datatype Vertex = Vertex(
    position: Vec3,
    normal: Vec3,
    texCoords: Vec2,
    tangent: Vec3,
    bitangent: Vec3,
    boneIds: BoneIds,
    weights: BoneWeights)

  /** `struct Texture`: the GL texture name, its `type` string (the role it
      plays in the material) and the file it came from. */
  datatype Texture = Texture(id: uint32, kind: string, path: string)

  /** The two texture types that are numbered. */
  const Diffuse: string := "texture_diffuse"
  const Specular: string := "texture_specular"

  /** Every sampler uniform lives in the `material` struct of the shader. */
  const MaterialPrefix: string := "material."

  /** How many of the first `n` textures have type `t`. */
  function CountBefore(textures: seq<Texture>, n: nat, t: string): nat
    requires n <= |textures|
  {
    if n == 0 then 0
    else CountBefore(textures, n - 1, t) + (if textures[n - 1].kind == t then 1 else 0)
  }

  /** The name of the sampler uniform that texture `i` is bound to: the type,
      followed, for the two numbered types, by the texture's 1-based rank among
      the textures of its own type. */
  function SamplerName(textures: seq<Texture>, i: nat): string
    requires i < |textures|
  {
    var t := textures[i].kind;
    MaterialPrefix + t + (if t == Diffuse || t == Specular then NatToString(CountBefore(textures, i, t) + 1) else "")
  }

  /** The commands the texture loop issues for the first `n` textures: for
      texture `i`, activate unit `Texture0 + i`, set its sampler uniform to
      `i`, bind the texture to `Texture2D`. */
  function TextureCommands(program: uint32, textures: seq<Texture>, n: nat): seq<Command>
    requires n <= |textures|
  {
    if n == 0 then []
    else
      TextureCommands(program, textures, n - 1) +
      [ActiveTexture(Texture0 + (n - 1)),
       Uniform1i(program, SamplerName(textures, n - 1), n - 1),
       BindTexture(Texture2D, textures[n - 1].id)]
  }

  /** Everything `Draw` issues: the texture loop, then unit 0 made active
      again, and the indexed triangle draw through the mesh's vertex array. */
  function DrawCommands(program: uint32, textures: seq<Texture>, vao: uint32, indexCount: nat): seq<Command> {
    TextureCommands(program, textures, |textures|) +
    [ActiveTexture(Texture0),
     BindVertexArray(vao),
     DrawElements(Triangles, indexCount, UnsignedInt),
     BindVertexArray(0)]
  }

  class Mesh {
    var vertices: seq<Vertex>
    var indices: seq<uint32>
    var textures: seq<Texture>
    /** The vertex-array object that `setupMesh` created for this mesh. */
    var vao: uint32

    /** Stores the three vectors unchanged; `vao` stands for the name the GL
        handed out while the buffers were set up. */
    constructor (vertices: seq<Vertex>, indices: seq<uint32>, textures: seq<Texture>, vao: uint32)
      ensures this.vertices == vertices && this.indices == indices && this.textures == textures
      ensures this.vao == vao
    {
      this.vertices := vertices;
      this.indices := indices;
      this.textures := textures;
      this.vao := vao;
    }

    /** Draws the mesh with the shader program `program`. Changes nothing in
        the mesh; returns the GL commands it issues. */
    method Draw(program: uint32) returns (commands: seq<Command>)
      ensures commands == DrawCommands(program, textures, vao, |indices|)
    {
      var diffuseNr: nat := 1;
      var specularNr: nat := 1;
      commands := [];

      for i := 0 to |textures|
        invariant diffuseNr == CountBefore(textures, i, Diffuse) + 1
        invariant specularNr == CountBefore(textures, i, Specular) + 1
        invariant commands == TextureCommands(program, textures, i)
      {
        commands := commands + [ActiveTexture(Texture0 + i)];

        var number := "";
        var name := textures[i].kind;
        if name == Diffuse {
          number := NatToString(diffuseNr);
          diffuseNr := diffuseNr + 1;
        } else if name == Specular {
          number := NatToString(specularNr);
          specularNr := specularNr + 1;
        }

        commands := commands + [Uniform1i(program, MaterialPrefix + name + number, i)];
        commands := commands + [BindTexture(Texture2D, textures[i].id)];
      }
      commands := commands + [ActiveTexture(Texture0)];

      commands := commands + [BindVertexArray(vao)];
      commands := commands + [DrawElements(Triangles, |indices|, UnsignedInt)];
      commands := commands + [BindVertexArray(0)];
    }
  }

  /** Texture `i` is activated on unit `Texture0 + i`, its sampler uniform is
      set to `i` and it is bound as a 2D texture: three commands per texture,
      in vector order. */
  lemma {:induction false} TextureCommandsAt(program: uint32, textures: seq<Texture>, n: nat, i: nat)
    requires n <= |textures| && i < n
    ensures |TextureCommands(program, textures, n)| == 3 * n
    ensures TextureCommands(program, textures, n)[3 * i] == ActiveTexture(Texture0 + i)
    ensures TextureCommands(program, textures, n)[3 * i + 1] == Uniform1i(program, SamplerName(textures, i), i)
    ensures TextureCommands(program, textures, n)[3 * i + 2] == BindTexture(Texture2D, textures[i].id)
  {
    var prev := TextureCommands(program, textures, n - 1);
    var last := [ActiveTexture(Texture0 + (n - 1)),
                 Uniform1i(program, SamplerName(textures, n - 1), n - 1),
                 BindTexture(Texture2D, textures[n - 1].id)];
    assert TextureCommands(program, textures, n) == prev + last;
    if n > 1 {
      TextureCommandsAt(program, textures, n - 1, if i < n - 1 then i else 0);
    }
    assert |prev| == 3 * (n - 1);
    if i < n - 1 {
      assert (prev + last)[3 * i] == prev[3 * i];
      assert (prev + last)[3 * i + 1] == prev[3 * i + 1];
      assert (prev + last)[3 * i + 2] == prev[3 * i + 2];
    }
  }

  /** The whole draw: texture `i`'s three commands at `3 * i`, then unit 0
      made active again and `indexCount` indices drawn as triangles. */
  lemma DrawCommandsShape(program: uint32, textures: seq<Texture>, vao: uint32, indexCount: nat)
    ensures |DrawCommands(program, textures, vao, indexCount)| == 3 * |textures| + 4
    ensures forall i :: 0 <= i < |textures| ==>
      DrawCommands(program, textures, vao, indexCount)[3 * i] == ActiveTexture(Texture0 + i) &&
      DrawCommands(program, textures, vao, indexCount)[3 * i + 1] == Uniform1i(program, SamplerName(textures, i), i)
    ensures DrawCommands(program, textures, vao, indexCount)[3 * |textures|..] ==
      [ActiveTexture(Texture0), BindVertexArray(vao), DrawElements(Triangles, indexCount, UnsignedInt), BindVertexArray(0)]
  {
    var n := |textures|;
    var loop := TextureCommands(program, textures, n);
    if n > 0 {
      TextureCommandsAt(program, textures, n, 0);
    }
    forall i | 0 <= i < n
      ensures DrawCommands(program, textures, vao, indexCount)[3 * i] == ActiveTexture(Texture0 + i)
      ensures DrawCommands(program, textures, vao, indexCount)[3 * i + 1] == Uniform1i(program, SamplerName(textures, i), i)
    {
      TextureCommandsAt(program, textures, n, i);
    }
  }

  /** Counts only grow as more textures are looked at. */
  lemma {:induction false} CountBeforeMonotone(textures: seq<Texture>, i: nat, j: nat, t: string)
    requires i <= j <= |textures|
    ensures CountBefore(textures, i, t) <= CountBefore(textures, j, t)
  {
    if i < j {
      CountBeforeMonotone(textures, i, j - 1, t);
    }
  }

  /** Counting over a list with `x` inserted at position `p`. */
  lemma {:induction false} CountBeforeInsert(textures: seq<Texture>, p: nat, x: Texture, k: nat, t: string)
    requires p <= |textures| && k <= |textures| + 1
    ensures var inserted := textures[..p] + [x] + textures[p..];
      CountBefore(inserted, k, t) ==
        if k <= p then CountBefore(textures, k, t)
        else CountBefore(textures, k - 1, t) + (if x.kind == t then 1 else 0)
  {
    var inserted := textures[..p] + [x] + textures[p..];
    if k > 0 {
      CountBeforeInsert(textures, p, x, k - 1, t);
      if k <= p {
        assert inserted[k - 1] == textures[k - 1];
      } else if k > p + 1 {
        assert inserted[k - 1] == textures[k - 2];
      } else {
        assert inserted[k - 1] == x;
      }
    }
  }

  /** The naming rule. A `texture_diffuse` or `texture_specular` texture is
      named after its type and its 1-based rank among the textures of that
      type up to and including itself; a texture of any other type is named
      after its type alone. */
  lemma SamplerNameRule(textures: seq<Texture>, i: nat)
    requires i < |textures|
    ensures var t := textures[i].kind;
      (t == Diffuse || t == Specular ==>
        CountBefore(textures, i + 1, t) >= 1 &&
        SamplerName(textures, i) == MaterialPrefix + t + NatToString(CountBefore(textures, i + 1, t)))
    ensures var t := textures[i].kind;
      (t != Diffuse && t != Specular ==> SamplerName(textures, i) == MaterialPrefix + t)
  {
  }

  /** Two textures of the same numbered type never share a sampler name. */
  lemma SamplerNamesDistinct(textures: seq<Texture>, i: nat, j: nat)
    requires i < j < |textures|
    requires textures[i].kind == textures[j].kind
    requires textures[i].kind == Diffuse || textures[i].kind == Specular
    ensures SamplerName(textures, i) != SamplerName(textures, j)
  {
    var t := textures[i].kind;
    CountBeforeMonotone(textures, i + 1, j, t);
    var m := CountBefore(textures, i, t) + 1;
    var n := CountBefore(textures, j, t) + 1;
    assert m < n;
    NatToStringInjective(m, n);
    PrefixCancel(MaterialPrefix + t, NatToString(m), NatToString(n));
  }

  /** Strings with a common prefix and different rests differ. */
  lemma PrefixCancel(prefix: string, a: string, b: string)
    requires a != b
    ensures prefix + a != prefix + b
  {
    assert (prefix + a)[|prefix|..] == a;
    assert (prefix + b)[|prefix|..] == b;
  }

  /** The counters are independent: inserting a texture anywhere in the
      list leaves the sampler name of every texture of a different type
      unchanged (only its index shifts). */
  lemma InsertOtherTypeKeepsName(textures: seq<Texture>, p: nat, x: Texture, j: nat)
    requires p <= |textures| && j < |textures|
    requires x.kind != textures[j].kind
    ensures var inserted := textures[..p] + [x] + textures[p..];
      SamplerName(inserted, if j < p then j else j + 1) == SamplerName(textures, j)
  {
    var inserted := textures[..p] + [x] + textures[p..];
    var j' := if j < p then j else j + 1;
    var t := textures[j].kind;
    assert inserted[j'] == textures[j];
    CountBeforeInsert(textures, p, x, j', t);
    assert CountBefore(inserted, j', t) == CountBefore(textures, j, t);
  }
}
