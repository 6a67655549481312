/** The wire record of an Encounter (`IEncounterData`), its situation report,
    the defaults the constructor applies to its optional fields, and the
    record that a serialise-after-deserialise round trip produces. */
module Wire {
  import opened Units

  datatype Option<T> = None | Some(value: T)

  /** `interface Sitrep`: four required and five optional text fields. */
  datatype Sitrep = Sitrep(
    name: string,
    description: string,
    pcVictory: string,
    enemyVictory: string,
    noVictory: Option<string>,
    deployment: Option<string>,
    objective: Option<string>,
    controlZone: Option<string>,
    extraction: Option<string>)

  /** `interface IEncounterData`; an optional field that is absent is None. */
  datatype EncounterData = EncounterData(
    name: string,
    location: string,
    npcs: seq<NpcData>,
    reinforcements: seq<NpcData>,
    labels: seq<string>,
    sitrep: Sitrep,
    campaign: Option<string>,
    gmNotes: Option<string>,
    narrativeNotes: Option<string>,
    objectives: Option<string>,
    conditions: Option<string>,
    environment: Option<string>,
    environmentDetails: Option<string>,
    cloudMap: Option<string>,
    localMap: Option<string>)

  const DefaultEnvironment: string := "Nominal"

  /** JavaScript's `o || fallback` on an optional string: absent and the empty
      string are both falsy and give the fallback. */
  function OrElse(o: Option<string>, fallback: string): (r: string)
    ensures r == fallback || o == Some(r)
    ensures o.Some? && o.value != "" ==> r == o.value
    ensures r == "" ==> fallback == ""
  {
    if o.Some? && o.value != "" then o.value else fallback
  }

  /** `after` is what `before || d` leaves behind, written back as a present field. */
  predicate Defaulted(before: Option<string>, after: Option<string>, d: string) {
    && after.Some?
    && (before.Some? && before.value != "" ==> after == before)
    && (before.None? || before.value == "" ==> after == Some(d))
  }

  /** The record that serialising a freshly deserialised encounter gives back:
      the constructor's defaults applied, and both rosters taken from the raw
      `reinforcements`. */
  function Normalize(r: EncounterData): (n: EncounterData)
    ensures n.name == r.name && n.location == r.location
    ensures n.labels == r.labels && n.sitrep == r.sitrep
    ensures n.npcs == r.reinforcements && n.reinforcements == r.reinforcements
    ensures Defaulted(r.campaign, n.campaign, "")
    ensures Defaulted(r.gmNotes, n.gmNotes, "")
    ensures Defaulted(r.narrativeNotes, n.narrativeNotes, "")
    ensures Defaulted(r.objectives, n.objectives, "")
    ensures Defaulted(r.conditions, n.conditions, "")
    ensures Defaulted(r.environment, n.environment, DefaultEnvironment)
    ensures Defaulted(r.environmentDetails, n.environmentDetails, "")
    ensures Defaulted(r.cloudMap, n.cloudMap, "")
    ensures Defaulted(r.localMap, n.localMap, "")
  {
    var roster := SerializeAll(DeserializeAll(r.reinforcements));
    SerializeDeserializeAll(r.reinforcements);
    EncounterData(
      r.name, r.location, roster, roster, r.labels, r.sitrep,
      Some(OrElse(r.campaign, "")),
      Some(OrElse(r.gmNotes, "")),
      Some(OrElse(r.narrativeNotes, "")),
      Some(OrElse(r.objectives, "")),
      Some(OrElse(r.conditions, "")),
      Some(OrElse(r.environment, DefaultEnvironment)),
      Some(OrElse(r.environmentDetails, "")),
      Some(OrElse(r.cloudMap, "")),
      Some(OrElse(r.localMap, "")))
  }

  /** A record that the round trip reproduces: every optional field present,
      a non-empty environment, and the two rosters equal. */
  predicate Canonical(r: EncounterData) {
    && r.npcs == r.reinforcements
    && r.campaign.Some? && r.gmNotes.Some? && r.narrativeNotes.Some?
    && r.objectives.Some? && r.conditions.Some?
    && r.environment.Some? && r.environment.value != ""
    && r.environmentDetails.Some? && r.cloudMap.Some? && r.localMap.Some?
  }

  /** What the raw record holds in `npcs` has no effect on the built encounter. */
  lemma ConstructionIgnoresNpcs(r: EncounterData, other: seq<NpcData>)
    ensures Normalize(r.(npcs := other)) == Normalize(r)
  {
  }

  /** The round trip reproduces a record exactly when the record is canonical. */
  lemma NormalizeFixedPoint(r: EncounterData)
    ensures Normalize(r) == r <==> Canonical(r)
  {
  }

  /** Every record the round trip produces is canonical. */
  lemma NormalizeCanonical(r: EncounterData)
    ensures Canonical(Normalize(r))
  {
  }

  /** A second round trip changes nothing:
      `toRaw(fromRaw(toRaw(fromRaw(r)))) == toRaw(fromRaw(r))`. */
  lemma NormalizeIdempotent(r: EncounterData)
    ensures Normalize(Normalize(r)) == Normalize(r)
  {
  }
}
