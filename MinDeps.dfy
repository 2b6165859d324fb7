/** The collaborators of the batch catalogue: the texture-unit format flags of
    BufferedBatch, shader identities, the renderable descriptor (BatchableObject)
    and the two-operation texture atlas interface (TextureManager::Atlas). */
module MinDeps {

  /** `unsigned int`: the type of texture identifiers returned by getTextureID. */
  newtype uint32 = x: int | 0 <= x < 0x1_0000_0000

  /** `unsigned long`: the type of texture identifiers the atlas takes. */
  newtype uint64 = x: int | 0 <= x < 0x1_0000_0000_0000_0000

  type TextureId = uint32
  type TextureKey = uint64

  /** A data format bitmask (`unsigned long`, 64 bits wide). */
  type Format = bv64

  /** The number of texture units a renderable may use. */
  const UnitCount: nat := 4

  type TextureUnit = u: nat | u < UnitCount

  const FormatUsesTextureUnit0: Format := 0x1000
  const FormatUsesTextureUnit1: Format := 0x2000
  const FormatUsesTextureUnit2: Format := 0x4000
  const FormatUsesTextureUnit3: Format := 0x8000

  /** The format flag saying that a renderable uses texture unit `u`. */
  function UnitFlag(u: TextureUnit): Format
  {
    if u == 0 then FormatUsesTextureUnit0
    else if u == 1 then FormatUsesTextureUnit1
    else if u == 2 then FormatUsesTextureUnit2
    else FormatUsesTextureUnit3
  }

  /** The test `format & kFormatUsesTextureUnitN` made for unit `u`. */
  predicate UsesTextureUnit(format: Format, u: TextureUnit)
  {
    if u == 0 then format & FormatUsesTextureUnit0 != 0
    else if u == 1 then format & FormatUsesTextureUnit1 != 0
    else if u == 2 then format & FormatUsesTextureUnit2 != 0
    else format & FormatUsesTextureUnit3 != 0
  }

  /** The flag for unit u is the single bit 12 + u: it has no bit below 12 + u and none above it. */
  lemma {:induction false} UnitFlagIsBit(u: TextureUnit)
    ensures UnitFlag(u) == (1 as Format) << (12 + u)
    ensures UnitFlag(u) >> (12 + u) == 1
    ensures UnitFlag(u) & (((1 as Format) << (12 + u)) - 1) == 0
  {
    if u == 0 {
    } else if u == 1 {
    } else if u == 2 {
    } else {
    }
  }

  /** Distinct units have disjoint flags, and a flag on its own selects exactly its unit. */
  lemma {:induction false} UnitFlagsDisjoint(u: TextureUnit, v: TextureUnit)
    ensures u != v ==> UnitFlag(u) & UnitFlag(v) == 0
    ensures UsesTextureUnit(UnitFlag(u), v) <==> u == v
  {
    // one case per pair of units, so that every mask below is a constant
    if u == 0 {
      if v == 0 {
        assert UnitFlag(u) == 0x1000 && UnitFlag(v) == 0x1000;
      } else if v == 1 {
        assert UnitFlag(u) == 0x1000 && UnitFlag(v) == 0x2000;
      } else if v == 2 {
        assert UnitFlag(u) == 0x1000 && UnitFlag(v) == 0x4000;
      } else {
        assert UnitFlag(u) == 0x1000 && UnitFlag(v) == 0x8000;
      }
    } else if u == 1 {
      if v == 0 {
        assert UnitFlag(u) == 0x2000 && UnitFlag(v) == 0x1000;
      } else if v == 1 {
        assert UnitFlag(u) == 0x2000 && UnitFlag(v) == 0x2000;
      } else if v == 2 {
        assert UnitFlag(u) == 0x2000 && UnitFlag(v) == 0x4000;
      } else {
        assert UnitFlag(u) == 0x2000 && UnitFlag(v) == 0x8000;
      }
    } else if u == 2 {
      if v == 0 {
        assert UnitFlag(u) == 0x4000 && UnitFlag(v) == 0x1000;
      } else if v == 1 {
        assert UnitFlag(u) == 0x4000 && UnitFlag(v) == 0x2000;
      } else if v == 2 {
        assert UnitFlag(u) == 0x4000 && UnitFlag(v) == 0x4000;
      } else {
        assert UnitFlag(u) == 0x4000 && UnitFlag(v) == 0x8000;
      }
    } else {
      if v == 0 {
        assert UnitFlag(u) == 0x8000 && UnitFlag(v) == 0x1000;
      } else if v == 1 {
        assert UnitFlag(u) == 0x8000 && UnitFlag(v) == 0x2000;
      } else if v == 2 {
        assert UnitFlag(u) == 0x8000 && UnitFlag(v) == 0x4000;
      } else {
        assert UnitFlag(u) == 0x8000 && UnitFlag(v) == 0x8000;
      }
    }
  }

  /** Setting the flag of one unit does not change the test for any other unit. */
  lemma {:induction false} UsesTextureUnitIndependent(format: Format, u: TextureUnit, v: TextureUnit)
    requires u != v
    ensures UsesTextureUnit(format | UnitFlag(v), u) == UsesTextureUnit(format, u)
  {
    if u == 0 {
      if v == 0 {
        assert false;
      } else if v == 1 {
        assert UnitFlag(u) == 0x1000 && UnitFlag(v) == 0x2000;
      } else if v == 2 {
        assert UnitFlag(u) == 0x1000 && UnitFlag(v) == 0x4000;
      } else {
        assert UnitFlag(u) == 0x1000 && UnitFlag(v) == 0x8000;
      }
    } else if u == 1 {
      if v == 0 {
        assert UnitFlag(u) == 0x2000 && UnitFlag(v) == 0x1000;
      } else if v == 1 {
        assert false;
      } else if v == 2 {
        assert UnitFlag(u) == 0x2000 && UnitFlag(v) == 0x4000;
      } else {
        assert UnitFlag(u) == 0x2000 && UnitFlag(v) == 0x8000;
      }
    } else if u == 2 {
      if v == 0 {
        assert UnitFlag(u) == 0x4000 && UnitFlag(v) == 0x1000;
      } else if v == 1 {
        assert UnitFlag(u) == 0x4000 && UnitFlag(v) == 0x2000;
      } else if v == 2 {
        assert false;
      } else {
        assert UnitFlag(u) == 0x4000 && UnitFlag(v) == 0x8000;
      }
    } else {
      if v == 0 {
        assert UnitFlag(u) == 0x8000 && UnitFlag(v) == 0x1000;
      } else if v == 1 {
        assert UnitFlag(u) == 0x8000 && UnitFlag(v) == 0x2000;
      } else if v == 2 {
        assert UnitFlag(u) == 0x8000 && UnitFlag(v) == 0x4000;
      } else {
        assert false;
      }
    }
  }

  /** Setting the flag of a unit makes its test succeed. */
  lemma {:induction false} UsesTextureUnitOwnFlag(format: Format, u: TextureUnit)
    ensures UsesTextureUnit(format | UnitFlag(u), u)
  {
    if u == 0 {
      assert (format | 0x1000) & 0x1000 == 0x1000;
    } else if u == 1 {
      assert (format | 0x2000) & 0x2000 == 0x2000;
    } else if u == 2 {
      assert (format | 0x4000) & 0x4000 == 0x4000;
    } else {
      assert (format | 0x8000) & 0x8000 == 0x8000;
    }
  }

  /** Clearing the flag of a unit makes its test fail, for each of the four units. */
  lemma UsesTextureUnitCleared(format: Format)
    ensures !UsesTextureUnit(format & !UnitFlag(0), 0)
    ensures !UsesTextureUnit(format & !UnitFlag(1), 1)
    ensures !UsesTextureUnit(format & !UnitFlag(2), 2)
    ensures !UsesTextureUnit(format & !UnitFlag(3), 3)
  {
  }

  /** A shader program; only its identity (the pointer) matters to the catalogue. */
  class ShaderObject {
    constructor ()
    {
    }
  }

  /** The five attributes that decide which catalogue a renderable belongs to. */
  datatype Identity = Identity(
    format: Format,
    isStatic: bool,
    vertexShader: ShaderObject?,
    fragmentShader: ShaderObject?,
    hasIndices: bool)

  /** A batchable object as the catalogue sees it: five identity getters and the
      texture bound to each of the four units. */
  datatype Renderable = Renderable(
    dataFormat: Format,
    isStatic: bool,
    vertexShader: ShaderObject?,
    fragmentShader: ShaderObject?,
    hasIndices: bool,
    texture0: TextureId,
    texture1: TextureId,
    texture2: TextureId,
    texture3: TextureId)
  {
    /** getTextureID(u). */
    function TextureOf(u: TextureUnit): TextureId
    {
      if u == 0 then texture0
      else if u == 1 then texture1
      else if u == 2 then texture2
      else texture3
    }

    /** getPrimaryTextureID(): the texture of unit 0. */
    function PrimaryTextureId(): TextureId
    {
      TextureOf(0)
    }

    function Key(): Identity
    {
      Identity(dataFormat, isStatic, vertexShader, fragmentShader, hasIndices)
    }
  }

  /** The implicit conversion from `unsigned int` to `unsigned long`. */
  function Widen(id: TextureId): TextureKey
  {
    id as int as TextureKey
  }

  /** A texture atlas. Its packing algorithm is not modelled: its capacity answer
      is a fixed function of the textures registered so far and the one asked
      about, and `added` records every registration in order. */
  class Atlas {
    const fits: (seq<TextureKey>, TextureKey) -> bool
    var added: seq<TextureKey>

    constructor (fits: (seq<TextureKey>, TextureKey) -> bool)
      ensures this.fits == fits && added == []
    {
      this.fits := fits;
      added := [];
    }

    /** willFit(textureID): a query that changes nothing. */
    method WillFit(id: TextureKey) returns (b: bool)
      ensures b == fits(added, id)
    {
      b := fits(added, id);
    }

    /** addTexture(textureID); the returned AtlasedTexture is ignored by every caller. */
    method AddTexture(id: TextureKey)
      modifies this
      ensures added == old(added) + [id]
    {
      added := added + [id];
    }
  }
}
