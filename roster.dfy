/** Unit handles, their raw wire form, and the roster operations the
    Encounter applies to them: find-by-ID, remove-first-by-ID and the
    Power sum. */
module Units {

  /** The raw record of a unit, reduced to the two fields the Encounter reads. */
  datatype NpcData = NpcData(id: string, power: int)

  /** A unit handle: the Encounter reads only its ID and its Power. */
  datatype Npc = Npc(ID: string, Power: int)

  /** The unit deserialiser (raw record to handle). */
  function NpcDeserialize(d: NpcData): (n: Npc)
    ensures n.ID == d.id && n.Power == d.power
  {
    Npc(d.id, d.power)
  }

  /** The unit serialiser (handle to raw record); it undoes NpcDeserialize. */
  function NpcSerialize(n: Npc): (d: NpcData)
    ensures NpcDeserialize(d) == n
  {
    NpcData(n.ID, n.Power)
  }

  /** `data.map(x => Npc.Deserialize(x))` */
  function DeserializeAll(ds: seq<NpcData>): (ns: seq<Npc>)
    ensures |ns| == |ds|
    ensures forall i :: 0 <= i < |ds| ==> ns[i].ID == ds[i].id && ns[i].Power == ds[i].power
  {
    seq(|ds|, i requires 0 <= i < |ds| => NpcDeserialize(ds[i]))
  }

  /** `npcs.map(x => Npc.Serialize(x))` */
  function SerializeAll(ns: seq<Npc>): (ds: seq<NpcData>)
    ensures |ds| == |ns|
    ensures forall i :: 0 <= i < |ns| ==> ds[i].id == ns[i].ID && ds[i].power == ns[i].Power
  {
    seq(|ns|, i requires 0 <= i < |ns| => NpcSerialize(ns[i]))
  }

  /** Serialising a roster and deserialising it again gives the roster back. */
  lemma DeserializeSerializeAll(ns: seq<Npc>)
    ensures DeserializeAll(SerializeAll(ns)) == ns
  {
  }

  /** Deserialising raw records and serialising them again gives the records back. */
  lemma SerializeDeserializeAll(ds: seq<NpcData>)
    ensures SerializeAll(DeserializeAll(ds)) == ds
  {
  }

  /** Two rosters serialise to the same raw records only if they are equal. */
  lemma SerializeAllInjective(a: seq<Npc>, b: seq<Npc>)
    ensures SerializeAll(a) == SerializeAll(b) <==> a == b
  {
  }

  /** Some unit of the roster carries this ID. */
  predicate HasId(s: seq<Npc>, id: string) {
    exists j :: 0 <= j < |s| && s[j].ID == id
  }

  /** `k` is the position of the first unit of the roster that carries this ID. */
  predicate IsFirstWithId(s: seq<Npc>, id: string, k: int) {
    0 <= k < |s| && s[k].ID == id && forall j :: 0 <= j < k ==> s[j].ID != id
  }

  /** `findIndex(x => x.ID === id)`: the first index whose unit carries the ID,
      or -1 when there is none. */
  function FindIndex(s: seq<Npc>, id: string): (r: int)
    ensures -1 <= r < |s|
    ensures r == -1 <==> !HasId(s, id)
    ensures r != -1 ==> IsFirstWithId(s, id, r)
  {
    if s == [] then -1
    else if s[0].ID == id then 0
    else
      var k := FindIndex(s[1..], id);
      assert forall j :: 1 <= j < |s| ==> s[j] == s[1..][j - 1];
      if k == -1 then -1 else k + 1
  }

  /** `const idx = findIndex(...); if (idx > -1) splice(idx, 1)`: removes the
      first unit that carries the ID, and changes nothing when none does. */
  function RemoveById(s: seq<Npc>, id: string): (r: seq<Npc>)
    ensures !HasId(s, id) ==> r == s
    ensures HasId(s, id) ==> |r| == |s| - 1
    ensures HasId(s, id) ==>
      exists k :: IsFirstWithId(s, id, k) && r == s[..k] + s[k + 1..]
  {
    var idx := FindIndex(s, id);
    if idx > -1 then s[..idx] + s[idx + 1..] else s
  }

  /** The first matching unit is unique, so RemoveById deletes exactly position k. */
  lemma RemoveByIdAt(s: seq<Npc>, id: string, k: int)
    requires IsFirstWithId(s, id, k)
    ensures RemoveById(s, id) == s[..k] + s[k + 1..]
    ensures multiset(RemoveById(s, id)) + multiset{s[k]} == multiset(s)
  {
    var r := RemoveById(s, id);
    var k' :| IsFirstWithId(s, id, k') && r == s[..k'] + s[k' + 1..];
    assert k' == k;
    assert s == s[..k] + [s[k]] + s[k + 1..];
  }

  /** `npcs.reduce((a, b) => a + b.Power, 0)`: a left fold over the roster. */
  function SumPower(s: seq<Npc>): int {
    if s == [] then 0 else SumPower(s[..|s| - 1]) + s[|s| - 1].Power
  }

  /** Appending a unit adds its Power. */
  lemma SumPowerAppend(s: seq<Npc>, n: Npc)
    ensures SumPower(s + [n]) == SumPower(s) + n.Power
  {
  }

  /** The Power of a concatenation is the sum of the Powers of its parts. */
  lemma {:induction false} SumPowerConcat(a: seq<Npc>, b: seq<Npc>)
    ensures SumPower(a + b) == SumPower(a) + SumPower(b)
  {
    if b == [] {
      assert a + b == a;
    } else {
      var b' := b[..|b| - 1];
      SumPowerConcat(a, b');
      assert a + b == (a + b') + [b[|b| - 1]];
      SumPowerAppend(a + b', b[|b| - 1]);
      assert b == b' + [b[|b| - 1]];
      SumPowerAppend(b', b[|b| - 1]);
    }
  }

  /** Removing the unit at position k takes its Power off the sum. */
  lemma SumPowerRemoveAt(s: seq<Npc>, k: int)
    requires 0 <= k < |s|
    ensures SumPower(s[..k] + s[k + 1..]) == SumPower(s) - s[k].Power
  {
    assert s == s[..k] + ([s[k]] + s[k + 1..]);
    SumPowerConcat(s[..k], [s[k]] + s[k + 1..]);
    SumPowerConcat([s[k]], s[k + 1..]);
    SumPowerConcat(s[..k], s[k + 1..]);
    assert SumPower([s[k]]) == SumPower([s[k]][..0]) + s[k].Power;
  }

  /** Removing by ID takes off the Power of the removed unit, or nothing. */
  lemma SumPowerRemoveById(s: seq<Npc>, id: string)
    ensures !HasId(s, id) ==> SumPower(RemoveById(s, id)) == SumPower(s)
    ensures HasId(s, id) ==>
      SumPower(RemoveById(s, id)) == SumPower(s) - s[FindIndex(s, id)].Power
  {
    if HasId(s, id) {
      var k := FindIndex(s, id);
      RemoveByIdAt(s, id, k);
      SumPowerRemoveAt(s, k);
    }
  }

  /** A roster of units with non-negative Power has a non-negative sum. */
  lemma {:induction false} SumPowerNonNegative(s: seq<Npc>)
    requires forall i :: 0 <= i < |s| ==> s[i].Power >= 0
    ensures SumPower(s) >= 0
  {
    if s != [] {
      SumPowerNonNegative(s[..|s| - 1]);
    }
  }
}
