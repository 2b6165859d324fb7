/** Client scenarios: the behaviour the repository's unit tests and design
    describe, derived from the catalogue's contracts alone. */
module CatalogueScenarios {
  import opened MinDeps
  import opened Batching

  /** A mocked batchable object: the five identity getters and the primary
      texture; the other units report texture 0, a mock's default answer. */
  function Mock(format: Format, isStatic: bool, vShader: ShaderObject?, fShader: ShaderObject?,
                hasIndices: bool, primary: TextureId): (r: Renderable)
    ensures r.Key() == Identity(format, isStatic, vShader, fShader, hasIndices)
    ensures r.PrimaryTextureId() == primary
  {
    Renderable(format, isStatic, vShader, fShader, hasIndices, primary, 0, 0, 0)
  }

  /** A null object is never a match. */
  method NullIsNotAMatch() returns (matched: bool)
    ensures !matched
  {
    var c := new BatchCatalogue(0, false, null, null, false);
    matched := c.IsMatch(None, false);
  }

  /** In check-only mode an object differing from the catalogue in any one
      identity attribute is rejected. */
  method CheckOnlyMismatches() returns (byFormat: bool, byStatic: bool, byVertexShader: bool, byFragmentShader: bool, byIndices: bool)
    ensures !byFormat && !byStatic && !byVertexShader && !byFragmentShader && !byIndices
  {
    var c := new BatchCatalogue(0, false, null, null, false);
    byFormat := c.IsMatch(Some(Mock(1, false, null, null, false, 0)), true);
    byStatic := c.IsMatch(Some(Mock(0, true, null, null, false, 0)), true);
    var shader := new ShaderObject();
    byVertexShader := c.IsMatch(Some(Mock(0, false, shader, null, false, 0)), true);
    byFragmentShader := c.IsMatch(Some(Mock(0, false, null, shader, false, 0)), true);
    byIndices := c.IsMatch(Some(Mock(0, false, null, null, true, 0)), true);
  }

  /** In check-only mode the answer is exactly eligibility, and nothing is admitted. */
  method CheckOnlyDecidesEligibility(r: Renderable) returns (matched: bool, admitted: seq<TextureId>)
    ensures matched <==> r.Key() == Identity(0, false, null, null, false)
    ensures admitted == []
  {
    var c := new BatchCatalogue(0, false, null, null, false);
    matched := c.IsMatch(Some(r), true);
    admitted := c.textures;
  }

  /** An object whose primary texture is already admitted matches, wherever in
      the list it sits, and the list is left as it was. */
  method KnownTextureMatches() returns (first: bool, anywhere: bool, admitted: seq<TextureId>)
    ensures first && anywhere
    ensures admitted == [1, 2, 3]
  {
    var c := new BatchCatalogue(0, false, null, null, false);
    c.textures := [1];
    first := c.IsMatch(Some(Mock(0, false, null, null, false, 1)), false);
    var d := new BatchCatalogue(0, false, null, null, false);
    d.textures := [1, 2, 3];
    anywhere := d.IsMatch(Some(Mock(0, false, null, null, false, 2)), false);
    admitted := d.textures;
  }

  /** With no atlas bound, primaries 2, 3 and 2 again all match, and the
      admitted list ends as [2, 3]. */
  method RepeatedPrimaryAdmittedOnce() returns (m1: bool, m2: bool, m3: bool, admitted: seq<TextureId>)
    ensures m1 && m2 && m3
    ensures admitted == [2, 3]
  {
    var c := new BatchCatalogue(0, false, null, null, false);
    m1 := c.IsMatch(Some(Mock(0, false, null, null, false, 2)), false);
    assert c.textures == [2];
    m2 := c.IsMatch(Some(Mock(0, false, null, null, false, 3)), false);
    assert c.textures == [2, 3];
    m3 := c.IsMatch(Some(Mock(0, false, null, null, false, 2)), false);
    admitted := c.textures;
  }

  /** When the unit-0 atlas has no room, a new primary is not a match: nothing is
      admitted and the atlas is not called. */
  method FullAtlasRejects() returns (matched: bool, admitted: seq<TextureId>, added: seq<TextureKey>)
    ensures !matched
    ensures admitted == [] && added == []
  {
    var atlas := new Atlas((log: seq<TextureKey>, id: TextureKey) => false);
    var c := new BatchCatalogue(FormatUsesTextureUnit0, false, null, null, false);
    c.BindTextureUnit(0, atlas);
    matched := c.IsMatch(Some(Mock(FormatUsesTextureUnit0, false, null, null, false, 2)), false);
    assert c.Log(0) == atlas.added;
    admitted, added := c.textures, atlas.added;
  }

  /** One atlas bound to units 0 and 1 of a catalogue whose format uses both:
      committing a new object hands the atlas the unit-0 texture, then the
      unit-1 texture, and unit 2's texture, whose flag is clear, not at all. */
  method SharedAtlasReceivesBothUnits() returns (matched: bool, admitted: seq<TextureId>, added: seq<TextureKey>)
    ensures matched
    ensures admitted == [5] && added == [5, 7]
  {
    var atlas := new Atlas((log: seq<TextureKey>, id: TextureKey) => true);
    var format := FormatUsesTextureUnit0 | FormatUsesTextureUnit1;
    var c := new BatchCatalogue(format, false, null, null, false);
    c.BindTextureUnit(0, atlas);
    c.BindTextureUnit(1, atlas);
    var r := Renderable(format, false, null, null, false, 5, 7, 9, 0);
    ghost var slots := c.textureUnit[..];
    ghost var regs := [Registration(0, 5), Registration(1, 7)];
    assert UsesTextureUnit(format, 0) && UsesTextureUnit(format, 1);
    assert !UsesTextureUnit(format, 2) && !UsesTextureUnit(format, 3);
    assert UnitRegistrations(slots, r) == regs;
    assert slots[0] == atlas && slots[1] == atlas;
    assert regs[1..] == [Registration(1, 7)] && regs[1..][1..] == [];
    assert AddedTo(atlas, slots, regs[1..]) == [7];
    assert AddedTo(atlas, slots, regs) == [5, 7];
    matched := c.IsMatch(Some(r), false);
    assert c.Log(0) == atlas.added;
    admitted, added := c.textures, atlas.added;
  }
}
