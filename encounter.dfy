/** The Encounter aggregate: scene metadata, an active roster and a
    reinforcement roster of units, and map references, edited in place.
    Every persisting mutation bumps the ghost `saveCount`, which stands for
    one call of the store's save action. */
module Encounters {
  import opened Units
  import opened Wire

  /** The image folders the map resolution asks the image resolver for. */
  datatype ImageTag = Map | Frame

  const PlaceholderMap: string := "nodata.png"

  class Encounter {
    var id: string
    var name: string
    var location: string
    var labels: seq<string>
    var npcs: seq<Npc>
    var reinforcements: seq<Npc>
    var gmNotes: string
    var campaign: string
    var narrativeNotes: string
    var objectives: string
    var conditions: string
    var environment: string
    var environmentDetails: string
    var sitrep: Sitrep
    var cloudMap: string
    var localMap: string
    /** How many times the encounter has asked the store to save it. */
    ghost var saveCount: nat

    /** Builds an encounter from its wire record; `freshId` is the generated id.
        Both rosters are deserialised from `data.reinforcements`; `data.npcs`
        is never read. */
    constructor (data: EncounterData, freshId: string)
      ensures id == freshId && saveCount == 0
      ensures name == data.name && location == data.location
      ensures labels == data.labels && sitrep == data.sitrep
      ensures campaign == OrElse(data.campaign, "")
      ensures gmNotes == OrElse(data.gmNotes, "")
      ensures narrativeNotes == OrElse(data.narrativeNotes, "")
      ensures objectives == OrElse(data.objectives, "")
      ensures conditions == OrElse(data.conditions, "")
      ensures environment == OrElse(data.environment, DefaultEnvironment)
      ensures environmentDetails == OrElse(data.environmentDetails, "")
      ensures cloudMap == OrElse(data.cloudMap, "")
      ensures localMap == OrElse(data.localMap, "")
      ensures npcs == DeserializeAll(data.reinforcements)
      ensures reinforcements == DeserializeAll(data.reinforcements)
      ensures |npcs| == |reinforcements| == |data.reinforcements|
      ensures environment != ""
      ensures Serialize(this) == Normalize(data)
    {
      id := freshId;
      name := data.name;
      location := data.location;
      labels := data.labels;
      campaign := OrElse(data.campaign, "");
      gmNotes := OrElse(data.gmNotes, "");
      narrativeNotes := OrElse(data.narrativeNotes, "");
      objectives := OrElse(data.objectives, "");
      conditions := OrElse(data.conditions, "");
      environment := OrElse(data.environment, DefaultEnvironment);
      environmentDetails := OrElse(data.environmentDetails, "");
      cloudMap := OrElse(data.cloudMap, "");
      localMap := OrElse(data.localMap, "");
      sitrep := data.sitrep;
      npcs := DeserializeAll(data.reinforcements);
      reinforcements := DeserializeAll(data.reinforcements);
      saveCount := 0;
    }

    /** Stands for `store.dispatch('encounter/saveEncounterData')`. */
    ghost method Save()
      modifies this`saveCount
      ensures saveCount == old(saveCount) + 1
    {
      saveCount := saveCount + 1;
    }

    /** Replaces the id with `freshId`; nothing else changes and nothing is saved. */
    method RenewID(freshId: string)
      modifies this`id
      ensures id == freshId
    {
      id := freshId;
    }

    method SetName(val: string)
      modifies this`name, this`saveCount
      ensures name == val && saveCount == old(saveCount) + 1
    {
      name := val;
      Save();
    }

    method SetSitrep(val: Sitrep)
      modifies this`sitrep, this`saveCount
      ensures sitrep == val && saveCount == old(saveCount) + 1
    {
      sitrep := val;
      Save();
    }

    method SetLocation(val: string)
      modifies this`location, this`saveCount
      ensures location == val && saveCount == old(saveCount) + 1
    {
      location := val;
      Save();
    }

    /** Unlike the constructor, the setter stores an empty environment as it is. */
    method SetEnvironment(val: string)
      modifies this`environment, this`saveCount
      ensures environment == val && saveCount == old(saveCount) + 1
    {
      environment := val;
      Save();
    }

    method SetEnvironmentDetails(val: string)
      modifies this`environmentDetails, this`saveCount
      ensures environmentDetails == val && saveCount == old(saveCount) + 1
    {
      environmentDetails := val;
      Save();
    }

    method SetGmNotes(val: string)
      modifies this`gmNotes, this`saveCount
      ensures gmNotes == val && saveCount == old(saveCount) + 1
    {
      gmNotes := val;
      Save();
    }

    method SetLabels(val: seq<string>)
      modifies this`labels, this`saveCount
      ensures labels == val && saveCount == old(saveCount) + 1
    {
      labels := val;
      Save();
    }

    method SetCampaign(val: string)
      modifies this`campaign, this`saveCount
      ensures campaign == val && saveCount == old(saveCount) + 1
    {
      campaign := val;
      Save();
    }

    method SetNarrativeNotes(val: string)
      modifies this`narrativeNotes, this`saveCount
      ensures narrativeNotes == val && saveCount == old(saveCount) + 1
    {
      narrativeNotes := val;
      Save();
    }

    method SetObjectives(val: string)
      modifies this`objectives, this`saveCount
      ensures objectives == val && saveCount == old(saveCount) + 1
    {
      objectives := val;
      Save();
    }

    method SetConditions(val: string)
      modifies this`conditions, this`saveCount
      ensures conditions == val && saveCount == old(saveCount) + 1
    {
      conditions := val;
      Save();
    }

    /** Appends to the active roster, without any ID check and without saving. */
    method AddNpc(npc: Npc)
      modifies this`npcs
      ensures npcs == old(npcs) + [npc]
      ensures Power() == old(Power()) + npc.Power
    {
      SumPowerAppend(npcs, npc);
      npcs := npcs + [npc];
    }

    /** Removes the first active unit whose ID matches, if any, without saving. */
    method RemoveNpc(npc: Npc)
      modifies this`npcs
      ensures npcs == RemoveById(old(npcs), npc.ID)
      ensures !HasId(old(npcs), npc.ID) ==> npcs == old(npcs)
      ensures HasId(old(npcs), npc.ID) ==>
        var k := FindIndex(old(npcs), npc.ID);
        IsFirstWithId(old(npcs), npc.ID, k) &&
        npcs == old(npcs)[..k] + old(npcs)[k + 1..] &&
        Power() == old(Power()) - old(npcs)[k].Power
    {
      SumPowerRemoveById(npcs, npc.ID);
      var idx := FindIndex(npcs, npc.ID);
      if idx > -1 {
        npcs := npcs[..idx] + npcs[idx + 1..];
      }
    }

    /** The summed Power of the active roster; reinforcements do not take part. */
    function Power(): (r: int)
      reads this`npcs
      ensures r == SumPower(npcs)
      ensures npcs == [] ==> r == 0
    {
      SumPower(npcs)
    }

    /** Replaces the reinforcement roster wholesale and saves. */
    method SetReinforcements(ns: seq<Npc>)
      modifies this`reinforcements, this`saveCount
      ensures reinforcements == ns && saveCount == old(saveCount) + 1
      ensures Power() == old(Power())
    {
      reinforcements := ns;
      Save();
    }

    /** Appends to the reinforcement roster and saves. */
    method AddReinforcement(n: Npc)
      modifies this`reinforcements, this`saveCount
      ensures reinforcements == old(reinforcements) + [n]
      ensures saveCount == old(saveCount) + 1
      ensures Power() == old(Power())
    {
      reinforcements := reinforcements + [n];
      Save();
    }

    /** Removes the first reinforcement whose ID matches, if any, and saves in
        either case. */
    method RemoveReinforcement(n: Npc)
      modifies this`reinforcements, this`saveCount
      ensures reinforcements == RemoveById(old(reinforcements), n.ID)
      ensures !HasId(old(reinforcements), n.ID) ==> reinforcements == old(reinforcements)
      ensures HasId(old(reinforcements), n.ID) ==>
        var k := FindIndex(old(reinforcements), n.ID);
        IsFirstWithId(old(reinforcements), n.ID, k) &&
        reinforcements == old(reinforcements)[..k] + old(reinforcements)[k + 1..]
      ensures saveCount == old(saveCount) + 1
      ensures Power() == old(Power())
    {
      if HasId(reinforcements, n.ID) {
        RemoveByIdAt(reinforcements, n.ID, FindIndex(reinforcements, n.ID));
      }
      var idx := FindIndex(reinforcements, n.ID);
      if idx > -1 {
        reinforcements := reinforcements[..idx] + reinforcements[idx + 1..];
      }
      Save();
    }

    method SetCloudMap(src: string)
      modifies this`cloudMap, this`saveCount
      ensures cloudMap == src && saveCount == old(saveCount) + 1
    {
      cloudMap := src;
      Save();
    }

    method SetLocalMap(src: string)
      modifies this`localMap, this`saveCount
      ensures localMap == src && saveCount == old(saveCount) + 1
    {
      localMap := src;
      Save();
    }

    /** The map to display. A cloud map wins; otherwise, off the web platform,
        a local map is resolved in the map folder; otherwise the placeholder
        frame image is resolved with the fallback flag set. `imagePath` stands
        for the image resolver; an omitted fallback argument is `false`. */
    function Map(platformIsWeb: bool, imagePath: (ImageTag, string, bool) -> string): (r: string)
      reads this`cloudMap, this`localMap
      ensures cloudMap != "" ==> r == cloudMap
      ensures cloudMap == "" && !platformIsWeb && localMap != "" ==>
        r == imagePath(ImageTag.Map, localMap, false)
      ensures cloudMap == "" && (platformIsWeb || localMap == "") ==>
        r == imagePath(ImageTag.Frame, PlaceholderMap, true)
    {
      if cloudMap != "" then cloudMap
      else if !platformIsWeb && localMap != "" then imagePath(ImageTag.Map, localMap, false)
      else imagePath(ImageTag.Frame, PlaceholderMap, true)
    }

    /** The wire record of an encounter; every optional field is written out. */
    static function Serialize(enc: Encounter): (r: EncounterData)
      reads enc
      ensures r.name == enc.name && r.location == enc.location
      ensures r.labels == enc.labels && r.sitrep == enc.sitrep
      ensures DeserializeAll(r.npcs) == enc.npcs
      ensures DeserializeAll(r.reinforcements) == enc.reinforcements
      ensures r.campaign == Some(enc.campaign) && r.gmNotes == Some(enc.gmNotes)
      ensures r.narrativeNotes == Some(enc.narrativeNotes)
      ensures r.objectives == Some(enc.objectives) && r.conditions == Some(enc.conditions)
      ensures r.environment == Some(enc.environment)
      ensures r.environmentDetails == Some(enc.environmentDetails)
      ensures r.cloudMap == Some(enc.cloudMap) && r.localMap == Some(enc.localMap)
    {
      DeserializeSerializeAll(enc.npcs);
      DeserializeSerializeAll(enc.reinforcements);
      EncounterData(
        enc.name, enc.location, SerializeAll(enc.npcs), SerializeAll(enc.reinforcements),
        enc.labels, enc.sitrep,
        Some(enc.campaign), Some(enc.gmNotes), Some(enc.narrativeNotes),
        Some(enc.objectives), Some(enc.conditions), Some(enc.environment),
        Some(enc.environmentDetails), Some(enc.cloudMap), Some(enc.localMap))
    }

    /** `new Encounter(data)` with a freshly generated id. */
    static method Deserialize(data: EncounterData, freshId: string) returns (enc: Encounter)
      ensures fresh(enc) && enc.id == freshId && enc.saveCount == 0
      ensures Serialize(enc) == Normalize(data)
      ensures enc.npcs == enc.reinforcements == DeserializeAll(data.reinforcements)
      ensures enc.Power() == SumPowerData(data.reinforcements)
    {
      enc := new Encounter(data, freshId);
      DeserializeAllPower(data.reinforcements);
    }
  }

  /** Cloud map precedence: a non-empty cloud map is the answer whatever the
      platform and the local map. */
  lemma MapCloudFirst(e: Encounter, platformIsWeb: bool, imagePath: (ImageTag, string, bool) -> string,
                      otherWeb: bool, otherPath: (ImageTag, string, bool) -> string)
    requires e.cloudMap != ""
    ensures e.Map(platformIsWeb, imagePath) == e.Map(otherWeb, otherPath) == e.cloudMap
  {
  }

  /** Serialising an encounter, deserialising it and serialising again gives
      the first record back exactly when the two rosters are equal and the
      environment is non-empty; otherwise the active roster is replaced by
      the reinforcements, or an empty environment becomes "Nominal". */
  lemma SerializeRoundTrip(e: Encounter)
    ensures Normalize(Encounter.Serialize(e)) == Encounter.Serialize(e)
        <==> e.npcs == e.reinforcements && e.environment != ""
  {
  }

  /** The summed power of raw unit records. */
  function SumPowerData(ds: seq<NpcData>): int {
    if ds == [] then 0 else SumPowerData(ds[..|ds| - 1]) + ds[|ds| - 1].power
  }

  /** Deserialising raw records keeps their summed power. */
  lemma {:induction false} DeserializeAllPower(ds: seq<NpcData>)
    ensures SumPower(DeserializeAll(ds)) == SumPowerData(ds)
  {
    if ds != [] {
      var ds' := ds[..|ds| - 1];
      DeserializeAllPower(ds');
      assert DeserializeAll(ds)[..|ds| - 1] == DeserializeAll(ds');
    }
  }

  /** The scenario "Ambush at Outpost 7" with a raw record whose active roster
      is empty and whose reinforcements are u1 and u2, followed by AddNpc(u1)
      and RemoveReinforcement(u1). */
  method AmbushScenario(u1: NpcData, u2: NpcData, sitrep: Sitrep, freshId: string)
    returns (labels: seq<string>, environment: string, reinforcementsBuilt: nat,
             powerBuilt: int, powerAfterAdd: int, remaining: seq<Npc>, ghost savesByRemove: int)
    ensures labels == ["easy"] && environment == "Nominal" && reinforcementsBuilt == 2
    ensures powerBuilt == u1.power + u2.power
    ensures powerAfterAdd == u1.power + u2.power + u1.power
    ensures remaining == [NpcDeserialize(u2)]
    ensures savesByRemove == 1
  {
    var data := EncounterData("Ambush", "Outpost 7", [], [u1, u2], ["easy"], sitrep,
                              None, None, None, None, None, None, None, None, None);
    var enc := Encounter.Deserialize(data, freshId);
    labels, environment, reinforcementsBuilt := enc.labels, enc.environment, |enc.reinforcements|;
    assert enc.npcs == [NpcDeserialize(u1), NpcDeserialize(u2)];
    SumPowerAppend([], NpcDeserialize(u1));
    assert [] + [NpcDeserialize(u1)] == [NpcDeserialize(u1)];
    SumPowerAppend([NpcDeserialize(u1)], NpcDeserialize(u2));
    assert [NpcDeserialize(u1)] + [NpcDeserialize(u2)] == enc.npcs;
    powerBuilt := enc.Power();
    enc.AddNpc(NpcDeserialize(u1));
    powerAfterAdd := enc.Power();
    ghost var before := enc.saveCount;
    assert IsFirstWithId(enc.reinforcements, u1.id, 0);
    enc.RemoveReinforcement(NpcDeserialize(u1));
    savesByRemove := enc.saveCount - before;
    remaining := enc.reinforcements;
  }
}
