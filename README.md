# Batch catalogue

A model of the `BatchCatalogue` of a sprite-batching renderer. A catalogue
stands for one compatibility class of renderables: a data format, a static
flag, a vertex and a fragment shader, and whether indices are used. It also
holds two pieces of state:

- the primary textures it has admitted (`m_textures`);
- the texture atlas bound to each of its four texture units (`m_textureUnit[4]`).

`isMatch` decides whether a batchable object may join the batch. It checks
eligibility (the five attributes are equal) and, unless only a check was
asked for, capacity: a known primary texture always fits, and a new one must
fit the unit-0 atlas. If both hold, it commits the object. A commit of a new
primary texture calls `addTexture` on the atlas of every unit whose format
flag (bits 12 to 15 of the object's format) is set and whose atlas is bound,
and then appends the primary texture to the admitted list.

The project has three modules:

- `MinDeps` (`MinDeps.dfy`) covers the collaborators:
  - the unit flags as 64-bit masks;
  - the unsigned texture identifier types;
  - shader identities;
  - the batchable object as a value `Renderable`;
  - the two-operation atlas interface as a class `Atlas`. Its capacity answer is a fixed function `fits` of the textures it has been given so far. Its field `added` logs every `addTexture` call.
- `Batching` (`BatchCatalogue.dfy`) holds the catalogue as a class.
  - Its fields are the five constant identity attributes, the admitted list `textures`, and the array `textureUnit` of four optional atlases.
  - A ghost field `registrations` logs every `addTexture` call, in order, as a (unit, identifier) pair.
  - Specification functions describe the calls a commit makes (`UnitRegistration`, `UnitRegistrations`, `CommitRegistrations`) and what they add to each atlas's log (`ExtendLogs`).
  - The methods are proved to agree with these functions, and lemmas prove what the functions promise.
- `CatalogueScenarios` (`CatalogueScenarios.dfy`) replays the repository's unit tests and the documented commit sequences as client methods. Their outcomes follow from the catalogue's contracts alone.

## Model

| member | source | states |
|---|---|---|
| MinDeps.UnitFlagIsBit | src/min_deps.cpp:7-10 | the flag of unit u is the single bit 12 + u: it equals `1 << (12 + u)`, shifting it down by 12 + u gives 1, and it has no bit below 12 + u |
| MinDeps.UnitFlagsDisjoint | src/min_deps.cpp:7-10 | the flags of two distinct units share no bit, and testing a lone flag for unit v succeeds exactly when it is v's own flag |
| MinDeps.UsesTextureUnitIndependent | src/min_deps.cpp:7-10 | setting the flag of unit v in a format does not change the flag test for any other unit u |
| MinDeps.UsesTextureUnitOwnFlag | src/min_deps.cpp:7-10 | a format with the flag of unit u set passes the flag test for u |
| MinDeps.UsesTextureUnitCleared | src/min_deps.cpp:7-10 | a format with the flag of unit u cleared fails the flag test for u, for each of the four units |
| MinDeps.Atlas.constructor | src/min_deps.cpp:15-19 | a new atlas has the given capacity function and has been given no texture |
| MinDeps.Atlas.WillFit | src/min_deps.cpp:17 | the capacity query answers the atlas's capacity function applied to the textures given so far and the one asked about, and changes nothing |
| MinDeps.Atlas.AddTexture | src/min_deps.cpp:18 | registering a texture appends its identifier to the atlas's log and changes nothing else |
| Batching.BatchCatalogue.constructor | src/BatchCatalogue.cpp:6-17 | a new catalogue has the five given identity attributes, an empty admitted list, no registrations, and all four unit slots empty |
| Batching.BatchCatalogue.BindTextureUnit | src/BatchCatalogue.cpp:30 | binding sets exactly slot u of the unit array and keeps the catalogue's invariant |
| Batching.BatchCatalogue.IsEligible | src/BatchCatalogue.cpp:48-60 | an object is eligible if and only if its five identity attributes (format, static flag, vertex shader, fragment shader, indices) all equal the catalogue's |
| Batching.BatchCatalogue.ContainsTexture | src/BatchCatalogue.cpp:65-73 | the lookup loop finds an identifier if and only if it occurs somewhere in the admitted list |
| Batching.BatchCatalogue.WillFit | src/BatchCatalogue.cpp:62-86 | the probe answers true for an admitted primary texture; otherwise it answers the unit-0 atlas's capacity for that texture, or true when no unit-0 atlas is bound. The unit-0 atlas is asked exactly when the texture is new and the atlas is bound, and nothing is changed |
| Batching.BatchCatalogue.RegisterWithUnit | src/BatchCatalogue.cpp:99-105 | one per-unit block: when the object's format flags unit u and an atlas is bound to u, that atlas is called once with the unit's texture; otherwise no call is made |
| Batching.BatchCatalogue.RegisterWithUnits | src/BatchCatalogue.cpp:99-126 | the four blocks in turn make exactly the calls `UnitRegistrations` lists, in that order, and extend every bound atlas's log by what those calls hand it |
| Batching.BatchCatalogue.AddToCatalogue | src/BatchCatalogue.cpp:88-129 | a known primary texture leaves the admitted list, the call log and every atlas as they were. A new one makes the per-unit calls and then appends the primary texture once. The no-duplicates invariant is kept |
| Batching.BatchCatalogue.IsMatch | src/BatchCatalogue.cpp:33-46 | the result is true exactly when the object is eligible and, outside check-only mode, fits. In check-only mode, or when the result is false, nothing changes. Otherwise the commit's effects happen |
| Batching.UnitRegistrationShape | src/BatchCatalogue.cpp:99-105 | a per-unit block makes at most one call, to its own unit, and makes it exactly when the unit's flag is set and its atlas is bound, passing the unit's texture |
| Batching.UnitRegistrationIgnoresOtherFlags | src/BatchCatalogue.cpp:99-126 | whether a unit's block makes its call does not depend on the flags of the other units |
| Batching.UnitRegistrationsMembers | src/BatchCatalogue.cpp:99-126 | a commit of a new primary texture calls a unit's atlas with a given identifier if and only if the flag is set, the atlas is bound, and the identifier is that unit's texture |
| Batching.UnitRegistrationsAscending | src/BatchCatalogue.cpp:99-126 | the calls of a commit go to strictly ascending units, so no unit is called twice |
| Batching.AddedToAppend | src/BatchCatalogue.cpp:99-126 | the identifiers an atlas receives from two runs of calls are those of the first run followed by those of the second, even when one atlas is bound to several units |
| Batching.ExtendLogsAppend | src/BatchCatalogue.cpp:99-126 | extending the atlas logs by two runs of calls in turn gives the same logs as extending them once by both runs |
| Batching.AddPrimaryGrows | src/BatchCatalogue.cpp:128 | a commit only extends the admitted list, by at most one entry, leaves the primary texture in it, and keeps it free of duplicates |
| Batching.CommitIdempotent | src/BatchCatalogue.cpp:89-97 | committing a second object with an already admitted primary texture changes the admitted list no further and makes no atlas call |
| Batching.CommitAllAdmitsPrimaries | src/BatchCatalogue.cpp:88-129 | after any run of commits the admitted list extends the original one and is free of duplicates. An identifier is in it if and only if it was there before or is the primary texture of a committed object |
| CatalogueScenarios.Mock | tests/gmock_test.cc:16-24 | a mocked object has the identity and primary texture it is given |
| CatalogueScenarios.NullIsNotAMatch | tests/gmock_test.cc:29-33 | a null object is not a match |
| CatalogueScenarios.CheckOnlyMismatches | tests/gmock_test.cc:35-98 | in check-only mode, an object differing in format, static flag, vertex shader, fragment shader or index usage alone is not a match |
| CatalogueScenarios.CheckOnlyDecidesEligibility | tests/gmock_test.cc:100-111 | in check-only mode an object matches a default catalogue if and only if its identity is the catalogue's, and nothing is admitted |
| CatalogueScenarios.KnownTextureMatches | tests/gmock_test.cc:113-143 | an eligible object whose primary texture is admitted matches, whether that texture is the only one or sits in the middle of the list, and the list is unchanged |
| CatalogueScenarios.RepeatedPrimaryAdmittedOnce | src/BatchCatalogue.cpp:33-46 | with no atlas bound, objects with primaries 2, 3 and 2 all match, and the admitted list ends as [2, 3] |
| CatalogueScenarios.FullAtlasRejects | src/BatchCatalogue.cpp:76-83 | when the unit-0 atlas has no room, a new primary is not a match: nothing is admitted and the atlas receives no texture |
| CatalogueScenarios.SharedAtlasReceivesBothUnits | src/BatchCatalogue.cpp:99-128 | one atlas bound to units 0 and 1 receives the unit-0 texture and then the unit-1 texture. A unit whose flag is clear is skipped, and only the primary texture is admitted |

## Left out

- Batching.BatchCatalogue.IsMatch: takes the object as an optional value and answers false for a null object. This follows the unit test at tests/gmock_test.cc:29-33. The source dereferences the pointer without a guard (src/BatchCatalogue.cpp:34 and 50), so `isMatch(NULL, …)` is undefined behaviour there.
- Batching.BatchCatalogue.BindTextureUnit: is not in the source, which never stores an atlas in `m_textureUnit`. It exists only so that the atlas branches of `willFit` and `addToCatalogue` can be reached.
- Batching.BatchCatalogue.ContainsTexture: is the lookup loop that `willFit` (src/BatchCatalogue.cpp:65-73) and `addToCatalogue` (src/BatchCatalogue.cpp:89-97) each write out. The model writes it once and calls it from both.
- Batching.BatchCatalogue.RegisterWithUnit: is one of the four per-unit blocks of `addToCatalogue` (src/BatchCatalogue.cpp:99-126), written once with the unit as a parameter. `RegisterWithUnits` calls it for units 0 to 3 in turn, as the source runs the blocks, with no loop.
- MinDeps.Atlas: the packing algorithm behind `willFit` and `addTexture` is not modelled. The capacity answer is a fixed function of the textures registered so far. The `AtlasedTexture` that `addTexture` returns is dropped, because every caller ignores it.
- MinDeps.Renderable.PrimaryTextureId: carries no contract of its own. It is defined as the texture of unit 0 (src/min_deps.cpp:30-32), and the catalogue reads the primary texture through `TextureOf(0)` exactly as the source calls `getTextureID(0)`.
- MinDeps.UsesTextureUnitIndependent: is stated for setting another unit's flag only. The matching statement for clearing another unit's flag is not proved.
- `unsigned long` is taken to be 64 bits wide, for both the format masks and the atlas texture identifiers. `unsigned int` is taken to be 32 bits. The widening from texture identifier to atlas identifier is exact.
- The tests' stub subclass pushes `SupportedTexture*` values into a list of `unsigned int` (tests/gmock_test.cc:5-14). The scenarios instead seed the admitted list with the identifiers those tests mean.
- Heap allocation, the leaks in the tests, the commented-out `_debug` calls and the internals of `ShaderObject` and `AtlasedTexture` are not modelled. A shader is only an identity.
