# Encounter aggregate — a Dafny model

This project models the `Encounter` entity of the COMP/CON companion tool
(`src/renderer/classes/encounter/Encounter.ts`). An Encounter is a scenario:
scalar scene metadata (name, location, labels, notes, environment), a
situation report (`Sitrep`), an ordered roster of active units (`npcs`), an
ordered roster of reserve units (`reinforcements`), and two map references.
It is edited in place, and most edits ask the store to persist it.

- `roster.dfy`, module `Units`: unit handles and their raw records, the
  roster-wide conversions, find-by-ID, remove-first-by-ID and the Power sum,
  with their lemmas.
- `wire.dfy`, module `Wire`: the wire record `IEncounterData` and `Sitrep`,
  the `||` defaulting of optional fields, and `Normalize`, the record that
  `Serialize(Deserialize(r))` yields, with its round-trip lemmas.
- `encounter.dfy`, module `Encounters`: the class `Encounter` with one field
  per private field of the source, its setters and roster mutations as
  methods with field-granular `modifies` frames (so "no other field changes"
  is part of every contract), `Power`, `Map`, `Serialize` and `Deserialize`.

The getters of the source (`ID`, `Name`, `Npcs`, `CloudMap`, …) return a field
unchanged; in the model they are the fields themselves. The ghost field
`saveCount` counts calls of the private `save()`, which dispatches the
store's save action. `uuid()` is a `freshId` parameter. `Capacitor.platform`
is the parameter `platformIsWeb` and `getImagePath` the function parameter
`imagePath`.

## The active roster on construction

The wire record carries both an `npcs` and a `reinforcements` array, and
`Serialize` writes each roster to its own array, so the active roster is
evidently meant to be rebuilt from `npcs`, which would make a serialise and
deserialise round trip lossless for the rosters (an empty environment would
still come back as `"Nominal"`, see below). The constructor instead builds both rosters
from the raw `reinforcements` (`Encounter.ts:71-72`). The model follows the
code as written:
`Encounters.Encounter.constructor` and `Encounters.Encounter.Deserialize`
state that both rosters are the deserialised `reinforcements`,
`Wire.ConstructionIgnoresNpcs` that the raw `npcs` have no effect, and
`Wire.NormalizeFixedPoint` that the round trip reproduces a record exactly
when its two rosters are equal, every optional field is present and the
environment is non-empty. `Encounters.SerializeRoundTrip` restates this for a
live encounter: serialise, deserialise and serialise again loses nothing
exactly when `npcs == reinforcements` and `environment != ""` (an environment
set to `""` through the setter comes back as `"Nominal"`). The scenario
`Encounters.AmbushScenario` shows the consequence for Power: an encounter
built with no active units and two reinforcements has the Power of both.

## Model

| member | source | states |
|---|---|---|
| `Units.NpcDeserialize` | src/renderer/classes/encounter/Encounter.ts:71-72 | a deserialised unit carries the raw record's id and power |
| `Units.NpcSerialize` | src/renderer/classes/encounter/Encounter.ts:250-251 | serialising a unit and deserialising it gives the same unit back |
| `Units.DeserializeAll` | src/renderer/classes/encounter/Encounter.ts:71-72 | `map(Npc.Deserialize)`: same length, each unit built from the record at the same position |
| `Units.SerializeAll` | src/renderer/classes/encounter/Encounter.ts:250-251 | `map(Npc.Serialize)`: same length, each record taken from the unit at the same position |
| `Units.DeserializeSerializeAll` | src/renderer/classes/encounter/Encounter.ts:247-269 | a roster survives serialise-then-deserialise unchanged |
| `Units.SerializeDeserializeAll` | src/renderer/classes/encounter/Encounter.ts:247-269 | raw unit records survive deserialise-then-serialise unchanged |
| `Units.SerializeAllInjective` | src/renderer/classes/encounter/Encounter.ts:250-251 | two rosters serialise to the same records if and only if they are equal |
| `Units.FindIndex` | src/renderer/classes/encounter/Encounter.ts:194 | `findIndex` by ID: -1 exactly when no unit has the ID, otherwise the position of the first unit that has it |
| `Units.RemoveById` | src/renderer/classes/encounter/Encounter.ts:193-196 | no matching ID: roster unchanged; otherwise exactly the first matching unit is cut out, length drops by one, the rest keep their order |
| `Units.RemoveByIdAt` | src/renderer/classes/encounter/Encounter.ts:216-220 | given the first match k, removal is `s[..k] + s[k+1..]` and removes one copy of `s[k]` from the multiset |
| `Units.SumPowerAppend` | src/renderer/classes/encounter/Encounter.ts:198-200 | appending a unit adds its Power to the sum |
| `Units.SumPowerConcat` | src/renderer/classes/encounter/Encounter.ts:198-200 | the Power sum of a concatenation is the sum of the two parts' sums |
| `Units.SumPowerRemoveAt` | src/renderer/classes/encounter/Encounter.ts:198-200 | removing the unit at k subtracts its Power from the sum |
| `Units.SumPowerRemoveById` | src/renderer/classes/encounter/Encounter.ts:193-200 | remove-by-ID subtracts the Power of the first matching unit, or nothing when none matches |
| `Units.SumPowerNonNegative` | src/renderer/classes/encounter/Encounter.ts:198-200 | a roster whose units all have non-negative Power has a non-negative sum |
| `Wire.OrElse` | src/renderer/classes/encounter/Encounter.ts:61-69 | `o \|\| fallback`: a present non-empty string is kept; absent or `""` gives the fallback |
| `Wire.Normalize` | src/renderer/classes/encounter/Encounter.ts:247-269 | Serialize after Deserialize keeps name, location, labels, sitrep and every present non-empty optional string, fills the rest with its default, and writes the raw reinforcements into both `npcs` and `reinforcements` |
| `Wire.ConstructionIgnoresNpcs` | src/renderer/classes/encounter/Encounter.ts:71-72 | the raw `npcs` array has no effect on what is built |
| `Wire.NormalizeFixedPoint` | src/renderer/classes/encounter/Encounter.ts:247-269 | the round trip reproduces a record if and only if its rosters are equal, all optional fields are present and the environment is non-empty |
| `Wire.NormalizeCanonical` | src/renderer/classes/encounter/Encounter.ts:247-269 | every record the round trip yields is one it reproduces |
| `Wire.NormalizeIdempotent` | src/renderer/classes/encounter/Encounter.ts:247-269 | a second serialise-deserialise round trip changes nothing |
| `Encounters.Encounter.constructor` | src/renderer/classes/encounter/Encounter.ts:56-73 | fresh id, no save; required fields copied; optional strings defaulted with `\|\|` (`"Nominal"` for environment, so an explicit `""` becomes `"Nominal"`); both rosters deserialised from `data.reinforcements`, hence of equal length |
| `Encounters.Encounter.Save` | src/renderer/classes/encounter/Encounter.ts:75-77 | one save action raises the save count by one and touches nothing else |
| `Encounters.Encounter.RenewID` | src/renderer/classes/encounter/Encounter.ts:83-85 | only the id changes, to the fresh value; no save |
| `Encounters.Encounter.SetName` | src/renderer/classes/encounter/Encounter.ts:91-94 | name assigned, one save, nothing else changes |
| `Encounters.Encounter.SetSitrep` | src/renderer/classes/encounter/Encounter.ts:100-103 | sitrep assigned, one save, nothing else changes |
| `Encounters.Encounter.SetLocation` | src/renderer/classes/encounter/Encounter.ts:109-112 | location assigned, one save, nothing else changes |
| `Encounters.Encounter.SetEnvironment` | src/renderer/classes/encounter/Encounter.ts:118-121 | environment assigned as given (even `""`), one save, nothing else changes |
| `Encounters.Encounter.SetEnvironmentDetails` | src/renderer/classes/encounter/Encounter.ts:127-130 | environment details assigned, one save, nothing else changes |
| `Encounters.Encounter.SetGmNotes` | src/renderer/classes/encounter/Encounter.ts:135-138 | GM notes assigned, one save, nothing else changes |
| `Encounters.Encounter.SetLabels` | src/renderer/classes/encounter/Encounter.ts:144-147 | labels assigned, one save, nothing else changes |
| `Encounters.Encounter.SetCampaign` | src/renderer/classes/encounter/Encounter.ts:153-156 | campaign assigned, one save, nothing else changes |
| `Encounters.Encounter.SetNarrativeNotes` | src/renderer/classes/encounter/Encounter.ts:162-165 | narrative notes assigned, one save, nothing else changes |
| `Encounters.Encounter.SetObjectives` | src/renderer/classes/encounter/Encounter.ts:171-174 | objectives assigned, one save, nothing else changes |
| `Encounters.Encounter.SetConditions` | src/renderer/classes/encounter/Encounter.ts:180-183 | conditions assigned, one save, nothing else changes |
| `Encounters.Encounter.AddNpc` | src/renderer/classes/encounter/Encounter.ts:189-191 | active roster becomes old roster + [npc], Power grows by its Power; no save, nothing else changes |
| `Encounters.Encounter.RemoveNpc` | src/renderer/classes/encounter/Encounter.ts:193-196 | first active unit with the ID removed (Power drops by its Power), or roster unchanged; no save, nothing else changes |
| `Encounters.Encounter.Power` | src/renderer/classes/encounter/Encounter.ts:198-200 | sum of Power over the active roster, 0 when empty; reads only `npcs`, so reinforcements never affect it |
| `Encounters.Encounter.SetReinforcements` | src/renderer/classes/encounter/Encounter.ts:206-209 | reinforcements replaced, one save, Power and every other field unchanged |
| `Encounters.Encounter.AddReinforcement` | src/renderer/classes/encounter/Encounter.ts:211-214 | reinforcements become old + [n], one save, Power unchanged |
| `Encounters.Encounter.RemoveReinforcement` | src/renderer/classes/encounter/Encounter.ts:216-220 | first reinforcement with the ID removed, or roster unchanged; one save in both cases; Power unchanged |
| `Encounters.Encounter.SetCloudMap` | src/renderer/classes/encounter/Encounter.ts:222-225 | cloud map assigned, one save, nothing else changes |
| `Encounters.Encounter.SetLocalMap` | src/renderer/classes/encounter/Encounter.ts:231-234 | local map assigned, one save, nothing else changes |
| `Encounters.Encounter.Map` | src/renderer/classes/encounter/Encounter.ts:240-245 | non-empty cloud map verbatim; else off the web with a local map, the resolved local map; else the resolved `nodata.png` frame placeholder with fallback; total, reads only the two map fields |
| `Encounters.MapCloudFirst` | src/renderer/classes/encounter/Encounter.ts:240-245 | with a non-empty cloud map the result does not depend on the platform or the resolver |
| `Encounters.Encounter.Serialize` | src/renderer/classes/encounter/Encounter.ts:247-265 | every field copied, every optional field written out, each roster mapped through the unit serialiser so that deserialising it gives the roster back |
| `Encounters.Encounter.Deserialize` | src/renderer/classes/encounter/Encounter.ts:267-269 | a fresh encounter whose serialised form is `Normalize(data)`, both rosters from `data.reinforcements`, Power the sum of the raw reinforcements' power |
| `Encounters.DeserializeAllPower` | src/renderer/classes/encounter/Encounter.ts:71-72 | deserialising raw unit records keeps their summed power |
| `Encounters.SerializeRoundTrip` | src/renderer/classes/encounter/Encounter.ts:247-269 | serialise, deserialise, serialise gives the first record back if and only if `npcs == reinforcements` and the environment is non-empty |
| `Encounters.AmbushScenario` | src/renderer/classes/encounter/Encounter.ts:56-220 | built from no active units and reinforcements u1, u2: Power is u1 + u2; after AddNpc(u1) it grows by u1; RemoveReinforcement(u1) leaves [u2] and saves once; labels `["easy"]`, environment `"Nominal"` and two reinforcements after construction |

## Left out

- Unit internals: a unit is reduced to its `ID` and `Power`, and its raw record to `id` and `power`; `Npc.Serialize`/`Npc.Deserialize` (in `@/class`) are not part of this model, and the model's two conversions are mutually inverse by construction.
- `uuid()`: the fresh id is a parameter; uniqueness of ids across encounters is not modelled.
- `store.dispatch`: modelled only as the ghost save counter; what the store does with the record is outside the model.
- `Capacitor.platform` and `getImagePath`: a boolean and a function parameter; the omitted `fallback` argument of the local-map call is passed as `false`.
- Aliasing: the source stores and returns its arrays and its `Sitrep` object by reference (`Labels`, `Npcs`, `Reinforcements`, `Sitrep`, the constructor's `data.labels` and `data.sitrep`, and `Serialize`, which hands out `enc.Labels` and `enc.Sitrep` themselves), so a caller can mutate them from outside; the model holds values (`seq` and datatypes), so this sharing is not captured.
- Power arithmetic: JavaScript's numeric coercion (`+a + +b.Power`) and floating point are not modelled; powers are integers.
- Malformed records: the source does not validate required fields; the model's wire record always has them.
- `NpcWave` is imported by the source but not used by the Encounter, so it is not modelled.
