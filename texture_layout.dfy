/** TextureLayout of the Rendering iteration: one atlas index per face. */
module RenderingTextureLayout {
  import opened CSharp
  import opened FaceGeometry

  datatype TextureLayout = TextureLayout(texTop: Byte, texBottom: Byte, texEast: Byte,
                                         texNorth: Byte, texWest: Byte, texSouth: Byte)
  {
    /** The field the Cube* method of face `f` reads. */
    function Of(f: Face): Byte
    {
      match f
      case Top => texTop
      case Bottom => texBottom
      case East => texEast
      case West => texWest
      case North => texNorth
      case South => texSouth
    }
  }

  /** The value of a TextureLayout field nobody has assigned (a C# struct's default). */
  const Default: TextureLayout := TextureLayout(0, 0, 0, 0, 0, 0)

  /** `TextureLayout(allTex)`: every face shows `allTex`. */
  function Uniform(allTex: Byte): (t: TextureLayout)
    ensures forall f: Face :: t.Of(f) == allTex
  {
    TextureLayout(allTex, allTex, allTex, allTex, allTex, allTex)
  }

  /** `TextureLayout(sideTex, botTex, topTex)`: the four sides show `sideTex`. */
  function Sided(sideTex: Byte, botTex: Byte, topTex: Byte): (t: TextureLayout)
    ensures forall f: Face :: f.IsSide() ==> t.Of(f) == sideTex
    ensures t.Of(Bottom) == botTex && t.Of(Top) == topTex
  {
    TextureLayout(topTex, botTex, sideTex, sideTex, sideTex, sideTex)
  }

  /** The one-argument constructor is the three-argument one with all three equal. */
  lemma UniformIsSided(a: Byte)
    ensures Uniform(a) == Sided(a, a, a)
  {
  }
}

/** TextureLayout of the World/Render iteration; the same shape, declared anew. */
module WorldRenderTextureLayout {
  import opened CSharp
  import opened FaceGeometry

  datatype TextureLayout = TextureLayout(texTop: Byte, texBottom: Byte, texEast: Byte,
                                         texNorth: Byte, texWest: Byte, texSouth: Byte)
  {
    /** The field a renderer of face `f` reads. */
    function Of(f: Face): Byte
    {
      match f
      case Top => texTop
      case Bottom => texBottom
      case East => texEast
      case West => texWest
      case North => texNorth
      case South => texSouth
    }
  }

  /** `TextureLayout(allTex)`: every face shows `allTex`. */
  function Uniform(allTex: Byte): (t: TextureLayout)
    ensures forall f: Face :: t.Of(f) == allTex
  {
    TextureLayout(allTex, allTex, allTex, allTex, allTex, allTex)
  }

  /** `TextureLayout(sideTex, botTex, topTex)`: the four sides show `sideTex`. */
  function Sided(sideTex: Byte, botTex: Byte, topTex: Byte): (t: TextureLayout)
    ensures forall f: Face :: f.IsSide() ==> t.Of(f) == sideTex
    ensures t.Of(Bottom) == botTex && t.Of(Top) == topTex
  {
    TextureLayout(topTex, botTex, sideTex, sideTex, sideTex, sideTex)
  }

  /** The one-argument constructor is the three-argument one with all three equal. */
  lemma UniformIsSided(a: Byte)
    ensures Uniform(a) == Sided(a, a, a)
  {
  }
}
