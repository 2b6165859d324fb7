/** The batch catalogue: one compatibility class of renderables, the primary
    textures it has admitted, and the atlases bound to its four texture units. */
module Batching {
  import opened MinDeps

  /** A descriptor pointer that may be null. */
  datatype Option<T> = None | Some(value: T)

  /** One addTexture call made by a catalogue: the unit whose atlas was called
      and the texture identifier passed to it. */
  datatype Registration = Registration(unit: TextureUnit, id: TextureKey)

  predicate Distinct(s: seq<TextureId>)
  {
    forall i, j :: 0 <= i < j < |s| ==> s[i] != s[j]
  }

  /** The admitted list after committing `r`: unchanged when its primary texture
      is already there, otherwise extended by it. */
  function AddPrimary(textures: seq<TextureId>, r: Renderable): seq<TextureId>
  {
    if r.PrimaryTextureId() in textures then textures else textures + [r.PrimaryTextureId()]
  }

  /** The call a commit makes for unit `u`: one, when the object's format flags
      the unit and an atlas is bound to it; none otherwise. */
  function UnitRegistration(slots: seq<Atlas?>, r: Renderable, u: TextureUnit): seq<Registration>
    requires |slots| == UnitCount
  {
    if UsesTextureUnit(r.dataFormat, u) && slots[u] != null then [Registration(u, Widen(r.TextureOf(u)))] else []
  }

  /** The calls a commit of a new primary texture makes: the four per-unit
      blocks, units 0 to 3 in turn. */
  function UnitRegistrations(slots: seq<Atlas?>, r: Renderable): seq<Registration>
    requires |slots| == UnitCount
  {
    UnitRegistration(slots, r, 0) + UnitRegistration(slots, r, 1) +
    UnitRegistration(slots, r, 2) + UnitRegistration(slots, r, 3)
  }

  /** All atlas calls made when `r` is committed to a catalogue that has admitted `textures`. */
  function CommitRegistrations(textures: seq<TextureId>, slots: seq<Atlas?>, r: Renderable): seq<Registration>
    requires |slots| == UnitCount
  {
    if r.PrimaryTextureId() in textures then [] else UnitRegistrations(slots, r)
  }

  /** The identifiers that `regs` pass to atlas `a`, in order (`a` may sit in several slots). */
  function AddedTo(a: Atlas, slots: seq<Atlas?>, regs: seq<Registration>): seq<TextureKey>
    requires |slots| == UnitCount
  {
    if regs == [] then []
    else (if slots[regs[0].unit] == a then [regs[0].id] else []) + AddedTo(a, slots, regs[1..])
  }

  /** What `regs` add to the registration log of the atlas in slot `u`. */
  function SlotDelta(slots: seq<Atlas?>, regs: seq<Registration>, u: TextureUnit): seq<TextureKey>
    requires |slots| == UnitCount
  {
    if slots[u] == null then [] else AddedTo(slots[u], slots, regs)
  }

  /** The per-slot registration logs after the calls `regs`. */
  function ExtendLogs(logs: seq<seq<TextureKey>>, slots: seq<Atlas?>, regs: seq<Registration>): seq<seq<TextureKey>>
    requires |logs| == UnitCount && |slots| == UnitCount
  {
    [logs[0] + SlotDelta(slots, regs, 0), logs[1] + SlotDelta(slots, regs, 1),
     logs[2] + SlotDelta(slots, regs, 2), logs[3] + SlotDelta(slots, regs, 3)]
  }

  /** The admitted list after committing each of `objects` in turn. */
  function CommitAll(textures: seq<TextureId>, objects: seq<Renderable>): seq<TextureId>
    decreases |objects|
  {
    if objects == [] then textures else CommitAll(AddPrimary(textures, objects[0]), objects[1..])
  }

  /** The calls in `regs` go to strictly ascending units. */
  predicate UnitsAscending(regs: seq<Registration>)
  {
    forall i, j :: 0 <= i < j < |regs| ==> regs[i].unit < regs[j].unit
  }

  /** Every call in `regs` goes to a unit below `bound`. */
  predicate UnitsBelow(regs: seq<Registration>, bound: nat)
  {
    forall i :: 0 <= i < |regs| ==> regs[i].unit < bound
  }

  /** Two ascending runs of calls, the first below the second, make one ascending run. */
  lemma UnitsAscendingConcat(x: seq<Registration>, y: seq<Registration>, bound: nat)
    requires UnitsAscending(x) && UnitsAscending(y) && UnitsBelow(x, bound)
    requires forall j :: 0 <= j < |y| ==> bound <= y[j].unit
    ensures UnitsAscending(x + y)
  {
    forall i, j | 0 <= i < j < |x + y|
      ensures (x + y)[i].unit < (x + y)[j].unit
    {
      if j < |x| {
        assert (x + y)[i] == x[i] && (x + y)[j] == x[j];
      } else if i < |x| {
        assert (x + y)[i] == x[i] && (x + y)[j] == y[j - |x|];
      } else {
        assert (x + y)[i] == y[i - |x|] && (x + y)[j] == y[j - |x|];
      }
    }
  }

  /** Two runs of calls below a bound make one run below it. */
  lemma UnitsBelowConcat(x: seq<Registration>, y: seq<Registration>, bound: nat)
    requires UnitsBelow(x, bound) && UnitsBelow(y, bound)
    ensures UnitsBelow(x + y, bound)
  {
    forall i | 0 <= i < |x + y|
      ensures (x + y)[i].unit < bound
    {
      if i < |x| {
        assert (x + y)[i] == x[i];
      } else {
        assert (x + y)[i] == y[i - |x|];
      }
    }
  }

  /** A block makes at most one call, to its own unit. */
  lemma UnitRegistrationShape(slots: seq<Atlas?>, r: Renderable, u: TextureUnit)
    requires |slots| == UnitCount
    ensures |UnitRegistration(slots, r, u)| <= 1
    ensures UnitsAscending(UnitRegistration(slots, r, u))
    ensures UnitsBelow(UnitRegistration(slots, r, u), u + 1)
    ensures forall j :: 0 <= j < |UnitRegistration(slots, r, u)| ==> u <= UnitRegistration(slots, r, u)[j].unit
    ensures forall g :: g in UnitRegistration(slots, r, u) <==>
      g.unit == u && UsesTextureUnit(r.dataFormat, u) && slots[u] != null && g.id == Widen(r.TextureOf(u))
  {
  }

  /** Whether unit `u` is called depends on its own flag only: setting another
      unit's flag in the object's format leaves unit `u`'s block as it was. */
  lemma UnitRegistrationIgnoresOtherFlags(slots: seq<Atlas?>, r: Renderable, u: TextureUnit, v: TextureUnit)
    requires |slots| == UnitCount && u != v
    ensures UnitRegistration(slots, r.(dataFormat := r.dataFormat | UnitFlag(v)), u) == UnitRegistration(slots, r, u)
  {
    UsesTextureUnitIndependent(r.dataFormat, u, v);
  }

  /** A commit calls addTexture exactly for the units whose flag is set and whose
      atlas is bound, passing that unit's texture. */
  lemma UnitRegistrationsMembers(slots: seq<Atlas?>, r: Renderable)
    requires |slots| == UnitCount
    ensures forall g :: g in UnitRegistrations(slots, r) <==>
      UsesTextureUnit(r.dataFormat, g.unit) && slots[g.unit] != null && g.id == Widen(r.TextureOf(g.unit))
  {
    UnitRegistrationShape(slots, r, 0);
    UnitRegistrationShape(slots, r, 1);
    UnitRegistrationShape(slots, r, 2);
    UnitRegistrationShape(slots, r, 3);
  }

  /** The calls of a commit go to strictly ascending units, so each unit's atlas
      slot is called at most once. */
  lemma UnitRegistrationsAscending(slots: seq<Atlas?>, r: Renderable)
    requires |slots| == UnitCount
    ensures UnitsAscending(UnitRegistrations(slots, r))
  {
    var u0, u1, u2, u3 :=
      UnitRegistration(slots, r, 0), UnitRegistration(slots, r, 1),
      UnitRegistration(slots, r, 2), UnitRegistration(slots, r, 3);
    UnitRegistrationShape(slots, r, 0);
    UnitRegistrationShape(slots, r, 1);
    UnitRegistrationShape(slots, r, 2);
    UnitRegistrationShape(slots, r, 3);
    UnitsAscendingConcat(u0, u1, 1);
    UnitsBelowConcat(u0, u1, 2);
    UnitsAscendingConcat(u0 + u1, u2, 2);
    UnitsBelowConcat(u0 + u1, u2, 3);
    UnitsAscendingConcat(u0 + u1 + u2, u3, 3);
  }

  /** Five sequences appended one after the other, with the last four grouped. */
  lemma ConcatAssociates<T>(a: seq<T>, b: seq<T>, c: seq<T>, d: seq<T>, e: seq<T>)
    ensures a + b + c + d + e == a + (b + c + d + e)
  {
  }

  /** AddedTo distributes over a sequence of calls made one after the other. */
  lemma {:induction false} AddedToAppend(a: Atlas, slots: seq<Atlas?>, x: seq<Registration>, y: seq<Registration>)
    requires |slots| == UnitCount
    ensures AddedTo(a, slots, x + y) == AddedTo(a, slots, x) + AddedTo(a, slots, y)
  {
    if x == [] {
      assert x + y == y;
    } else {
      var head := if slots[x[0].unit] == a then [x[0].id] else [];
      assert (x + y)[0] == x[0];
      assert (x + y)[1..] == x[1..] + y;
      AddedToAppend(a, slots, x[1..], y);
      calc {
        AddedTo(a, slots, x + y);
        head + AddedTo(a, slots, x[1..] + y);
        head + (AddedTo(a, slots, x[1..]) + AddedTo(a, slots, y));
        (head + AddedTo(a, slots, x[1..])) + AddedTo(a, slots, y);
      }
    }
  }

  /** The log of a slot grows by both sequences of calls, in turn. */
  lemma SlotDeltaAppend(slots: seq<Atlas?>, x: seq<Registration>, y: seq<Registration>, u: TextureUnit)
    requires |slots| == UnitCount
    ensures SlotDelta(slots, x + y, u) == SlotDelta(slots, x, u) + SlotDelta(slots, y, u)
  {
    if slots[u] != null {
      AddedToAppend(slots[u], slots, x, y);
    }
  }

  /** Extending the logs by two sequences of calls in turn is extending them by both. */
  lemma ExtendLogsAppend(logs: seq<seq<TextureKey>>, slots: seq<Atlas?>, x: seq<Registration>, y: seq<Registration>)
    requires |logs| == UnitCount && |slots| == UnitCount
    ensures ExtendLogs(ExtendLogs(logs, slots, x), slots, y) == ExtendLogs(logs, slots, x + y)
  {
    SlotDeltaAppend(slots, x, y, 0);
    SlotDeltaAppend(slots, x, y, 1);
    SlotDeltaAppend(slots, x, y, 2);
    SlotDeltaAppend(slots, x, y, 3);
    var l1, l2 := ExtendLogs(ExtendLogs(logs, slots, x), slots, y), ExtendLogs(logs, slots, x + y);
    assert l1[0] == l2[0] && l1[1] == l2[1] && l1[2] == l2[2] && l1[3] == l2[3];
  }

  /** No calls leave every log as it was. */
  lemma ExtendLogsEmpty(logs: seq<seq<TextureKey>>, slots: seq<Atlas?>)
    requires |logs| == UnitCount && |slots| == UnitCount
    ensures ExtendLogs(logs, slots, []) == logs
  {
    var e := ExtendLogs(logs, slots, []);
    assert SlotDelta(slots, [], 0) == [] && SlotDelta(slots, [], 1) == [];
    assert SlotDelta(slots, [], 2) == [] && SlotDelta(slots, [], 3) == [];
    assert e[0] == logs[0] && e[1] == logs[1] && e[2] == logs[2] && e[3] == logs[3];
    assert |e| == |logs|;
  }

  /** A single call adds its identifier to the log of every slot holding the atlas it went to. */
  lemma SlotDeltaSingle(slots: seq<Atlas?>, g: Registration, u: TextureUnit)
    requires |slots| == UnitCount
    ensures SlotDelta(slots, [g], u) == if slots[u] != null && slots[u] == slots[g.unit] then [g.id] else []
  {
    assert [g][1..] == [];
    if slots[u] != null {
      var head := if slots[g.unit] == slots[u] then [g.id] else [];
      assert AddedTo(slots[u], slots, [g]) == head + AddedTo(slots[u], slots, []);
      assert head + [] == head;
    }
  }

  /** Committing only grows the admitted list, by at most its primary texture, and keeps it free of duplicates. */
  lemma AddPrimaryGrows(textures: seq<TextureId>, r: Renderable)
    ensures textures <= AddPrimary(textures, r)
    ensures r.PrimaryTextureId() in AddPrimary(textures, r)
    ensures |AddPrimary(textures, r)| <= |textures| + 1
    ensures Distinct(textures) ==> Distinct(AddPrimary(textures, r))
  {
  }

  /** Re-committing an already admitted primary texture changes nothing and calls no atlas. */
  lemma CommitIdempotent(textures: seq<TextureId>, slots: seq<Atlas?>, r: Renderable, again: Renderable)
    requires |slots| == UnitCount
    requires again.PrimaryTextureId() == r.PrimaryTextureId()
    ensures AddPrimary(AddPrimary(textures, r), again) == AddPrimary(textures, r)
    ensures CommitRegistrations(AddPrimary(textures, r), slots, again) == []
  {
    AddPrimaryGrows(textures, r);
  }

  /** After a run of commits the admitted list holds each primary texture once:
      exactly those it held before and those of the committed objects. */
  lemma {:induction false} CommitAllAdmitsPrimaries(textures: seq<TextureId>, objects: seq<Renderable>)
    requires Distinct(textures)
    ensures textures <= CommitAll(textures, objects)
    ensures Distinct(CommitAll(textures, objects))
    ensures forall id :: id in CommitAll(textures, objects) <==>
      id in textures || exists i :: 0 <= i < |objects| && objects[i].PrimaryTextureId() == id
    decreases |objects|
  {
    if objects != [] {
      var next := AddPrimary(textures, objects[0]);
      AddPrimaryGrows(textures, objects[0]);
      CommitAllAdmitsPrimaries(next, objects[1..]);
      forall id | id in CommitAll(textures, objects)
        ensures id in textures || exists i :: 0 <= i < |objects| && objects[i].PrimaryTextureId() == id
      {
        if id !in next {
          var i :| 0 <= i < |objects[1..]| && objects[1..][i].PrimaryTextureId() == id;
          assert objects[i + 1].PrimaryTextureId() == id;
        } else if id !in textures {
          assert objects[0].PrimaryTextureId() == id;
        }
      }
      forall id | id in textures || exists i :: 0 <= i < |objects| && objects[i].PrimaryTextureId() == id
        ensures id in CommitAll(textures, objects)
      {
        if id !in textures {
          var i :| 0 <= i < |objects| && objects[i].PrimaryTextureId() == id;
          if i > 0 {
            assert objects[1..][i - 1].PrimaryTextureId() == id;
          }
        }
      }
    }
  }

  class BatchCatalogue {
    const format: Format
    const isStatic: bool
    const vertexShader: ShaderObject?
    const fragmentShader: ShaderObject?
    const indices: bool
    /** m_textures: the primary textures admitted so far. */
    var textures: seq<TextureId>
    /** m_textureUnit: the atlas bound to each texture unit, or null. */
    const textureUnit: array<Atlas?>
    /** Every addTexture call this catalogue has made, in order. */
    ghost var registrations: seq<Registration>

    ghost predicate Valid()
      reads this
    {
      textureUnit.Length == UnitCount && Distinct(textures)
    }

    /** The atlases bound to some unit. */
    ghost function Atlases(): set<Atlas>
      reads textureUnit
    {
      set a: Atlas | a in textureUnit[..]
    }

    /** The registration log of the atlas in each slot (empty for an unbound slot). */
    ghost function AtlasLogs(): (logs: seq<seq<TextureKey>>)
      requires textureUnit.Length == UnitCount
      reads textureUnit, Atlases()
      ensures |logs| == UnitCount
    {
      [Log(0), Log(1), Log(2), Log(3)]
    }

    ghost function Log(u: TextureUnit): seq<TextureKey>
      requires textureUnit.Length == UnitCount
      reads textureUnit, Atlases()
    {
      if textureUnit[u] == null then [] else textureUnit[u].added
    }

    function Key(): Identity
    {
      Identity(format, isStatic, vertexShader, fragmentShader, indices)
    }

    constructor (format: Format, isStatic: bool, vShader: ShaderObject?, fShader: ShaderObject?, indices: bool)
      ensures Valid() && fresh(textureUnit)
      ensures this.format == format && this.isStatic == isStatic
      ensures vertexShader == vShader && fragmentShader == fShader && this.indices == indices
      ensures textures == [] && registrations == []
      ensures forall u :: 0 <= u < UnitCount ==> textureUnit[u] == null
    {
      this.format := format;
      this.isStatic := isStatic;
      vertexShader := vShader;
      fragmentShader := fShader;
      this.indices := indices;
      var slots := new Atlas?[UnitCount];
      slots[0] := null;
      slots[1] := null;
      slots[2] := null;
      slots[3] := null;
      textureUnit := slots;
      textures := [];
      registrations := [];
    }

    /** Binds `atlas` (or nothing) to unit `u`. */
    method BindTextureUnit(u: TextureUnit, atlas: Atlas?)
      requires Valid()
      modifies textureUnit
      ensures Valid()
      ensures textureUnit[..] == old(textureUnit[..])[u := atlas]
    {
      textureUnit[u] := atlas;
    }

    /** isEligible: the object belongs to this catalogue's compatibility class. */
    function IsEligible(r: Renderable): (eligible: bool)
      ensures eligible <==> r.Key() == Key()
    {
      format == r.dataFormat && isStatic == r.isStatic &&
      vertexShader == r.vertexShader && fragmentShader == r.fragmentShader &&
      indices == r.hasIndices
    }

    /** What willFit answers: a known primary texture always fits; a new one fits
        when the unit-0 atlas says so, or when no atlas is bound to unit 0. */
    ghost predicate Fits(r: Renderable)
      requires Valid()
      reads this, textureUnit, Atlases()
    {
      r.PrimaryTextureId() in textures ||
      textureUnit[0] == null ||
      textureUnit[0].fits(textureUnit[0].added, Widen(r.PrimaryTextureId()))
    }

    /** The lookup of a texture in the admitted list. */
    method ContainsTexture(id: TextureId) returns (found: bool)
      ensures found <==> id in textures
    {
      var i := 0;
      while i < |textures|
        invariant 0 <= i <= |textures|
        invariant id !in textures[..i]
      {
        if textures[i] == id {
          return true;
        }
        i := i + 1;
      }
      assert textures[..i] == textures;
      return false;
    }

    /** willFit: the capacity probe. `probed` says whether the unit-0 atlas was asked. */
    method WillFit(r: Renderable) returns (fits: bool, ghost probed: bool)
      requires Valid()
      ensures fits == Fits(r)
      ensures probed <==> r.PrimaryTextureId() !in textures && textureUnit[0] != null
    {
      var known := ContainsTexture(r.TextureOf(0));
      if known {
        return true, false;
      }
      probed := false;
      if textureUnit[0] != null {
        probed := true;
        var ok := textureUnit[0].WillFit(Widen(r.TextureOf(0)));
        if !ok {
          return false, probed;
        }
      }
      return true, probed;
    }

    /** One of the four per-unit blocks of addToCatalogue. */
    method RegisterWithUnit(r: Renderable, u: TextureUnit)
      requires Valid()
      modifies this`registrations, Atlases()
      ensures Valid()
      ensures registrations == old(registrations) + UnitRegistration(textureUnit[..], r, u)
      ensures AtlasLogs() == ExtendLogs(old(AtlasLogs()), textureUnit[..], UnitRegistration(textureUnit[..], r, u))
    {
      ghost var slots := textureUnit[..];
      if UsesTextureUnit(r.dataFormat, u) {
        if textureUnit[u] != null {
          textureUnit[u].AddTexture(Widen(r.TextureOf(u)));
          registrations := registrations + [Registration(u, Widen(r.TextureOf(u)))];
          forall v: TextureUnit
            ensures Log(v) == old(Log(v)) + SlotDelta(slots, UnitRegistration(slots, r, u), v)
          {
            SlotDeltaSingle(slots, Registration(u, Widen(r.TextureOf(u))), v);
          }
          return;
        }
      }
      ExtendLogsEmpty(AtlasLogs(), slots);
    }

    /** The four per-unit blocks of addToCatalogue, units 0 to 3 in turn. */
    method RegisterWithUnits(r: Renderable)
      requires Valid()
      modifies this`registrations, Atlases()
      ensures Valid()
      ensures registrations == old(registrations) + UnitRegistrations(textureUnit[..], r)
      ensures AtlasLogs() == ExtendLogs(old(AtlasLogs()), textureUnit[..], UnitRegistrations(textureUnit[..], r))
    {
      ghost var slots := textureUnit[..];
      ghost var u0, u1, u2, u3 :=
        UnitRegistration(slots, r, 0), UnitRegistration(slots, r, 1),
        UnitRegistration(slots, r, 2), UnitRegistration(slots, r, 3);
      ghost var logs0 := AtlasLogs();
      RegisterWithUnit(r, 0);
      ghost var logs1 := AtlasLogs();
      assert logs1 == ExtendLogs(logs0, slots, u0);
      RegisterWithUnit(r, 1);
      ghost var logs2 := AtlasLogs();
      assert logs2 == ExtendLogs(logs1, slots, u1);
      RegisterWithUnit(r, 2);
      ghost var logs3 := AtlasLogs();
      assert logs3 == ExtendLogs(logs2, slots, u2);
      RegisterWithUnit(r, 3);
      assert AtlasLogs() == ExtendLogs(logs3, slots, u3);
      ExtendLogsAppend(logs0, slots, u0, u1);
      ExtendLogsAppend(logs0, slots, u0 + u1, u2);
      ExtendLogsAppend(logs0, slots, u0 + u1 + u2, u3);
      ConcatAssociates(old(registrations), u0, u1, u2, u3);
    }

    /** addToCatalogue: the commit. */
    method AddToCatalogue(r: Renderable)
      requires Valid()
      modifies this, Atlases()
      ensures Valid()
      ensures textures == AddPrimary(old(textures), r)
      ensures registrations == old(registrations) + CommitRegistrations(old(textures), textureUnit[..], r)
      ensures AtlasLogs() == ExtendLogs(old(AtlasLogs()), textureUnit[..], CommitRegistrations(old(textures), textureUnit[..], r))
    {
      var known := ContainsTexture(r.TextureOf(0));
      if known {
        ExtendLogsEmpty(AtlasLogs(), textureUnit[..]);
        return;
      }
      RegisterWithUnits(r);
      AddPrimaryGrows(textures, r);
      textures := textures + [r.TextureOf(0)];
    }

    /** isMatch: the entry point. In check-only mode only eligibility is decided;
        otherwise an eligible object that fits is committed. A null object never matches. */
    method IsMatch(obj: Option<Renderable>, checkOnly: bool) returns (matched: bool)
      requires Valid()
      modifies this, Atlases()
      ensures Valid()
      ensures matched <==> obj.Some? && IsEligible(obj.value) && (checkOnly || old(Fits(obj.value)))
      ensures !matched || checkOnly ==>
        textures == old(textures) && registrations == old(registrations) && AtlasLogs() == old(AtlasLogs())
      ensures matched && !checkOnly ==>
        textures == AddPrimary(old(textures), obj.value) &&
        registrations == old(registrations) + CommitRegistrations(old(textures), textureUnit[..], obj.value) &&
        AtlasLogs() == ExtendLogs(old(AtlasLogs()), textureUnit[..], CommitRegistrations(old(textures), textureUnit[..], obj.value))
    {
      if obj.None? {
        return false;
      }
      var r := obj.value;
      if !IsEligible(r) {
        return false;
      }
      if checkOnly {
        return true;
      }
      var fits, probed := WillFit(r);
      if !fits {
        return false;
      }
      AddToCatalogue(r);
      return true;
    }
  }
}
