/** A map with allocated ids and a name index (`client/src/freemap.rs`). */
module NamedMaps {
  import opened Common

  /** `free` lists ids given back; nothing gives one back yet, but `Insert` already takes from it. */
  datatype Table<V> = Table(
    values: map<nat, V>, nameId: map<string, nat>, idNames: map<nat, seq<string>>, free: seq<nat>)

  function EmptyTable<V>(): Table<V> {
    Table(map[], map[], map[], [])
  }

  function NextId<V>(t: Table<V>): nat {
    if t.free != [] then t.free[0] else |t.values| + 1
  }

  function Inserted<V>(t: Table<V>, value: V): Table<V> {
    t.(values := t.values[NextId(t) := value], free := if t.free != [] then t.free[1..] else t.free)
  }

  function Renamed<V>(t: Table<V>, id: nat, name: string): Table<V> {
    var names := if id in t.idNames then t.idNames[id] else [];
    t.(nameId := t.nameId[name := id], idNames := t.idNames[id := names + [name]])
  }

  function Find<V>(t: Table<V>, name: string): Option<V> {
    if name in t.nameId && t.nameId[name] in t.values then Some(t.values[t.nameId[name]]) else None
  }

  /** The ids in use and the free ids are, together, the numbers from 1 up, each once. */
  ghost predicate IdsPartition<V>(t: Table<V>) {
    && (forall i, j :: 0 <= i < j < |t.free| ==> t.free[i] != t.free[j])
    && (forall id :: id in t.free ==> id !in t.values)
    && (forall id: nat :: 1 <= id <= |t.values| + |t.free| <==> id in t.values || id in t.free)
  }

  /** No name dangles, and every name is listed with its id. */
  ghost predicate NamesLead<V>(t: Table<V>) {
    forall name :: name in t.nameId ==>
      t.nameId[name] in t.values && t.nameId[name] in t.idNames && name in t.idNames[t.nameId[name]]
  }

  /** Freshness: an inserted value gets an id that no value has, and the ids in use stay apart from the free ones. */
  lemma {:induction false} InsertFresh<V>(t: Table<V>, value: V)
    requires IdsPartition(t)
    ensures NextId(t) !in t.values && 1 <= NextId(t) <= |t.values| + |t.free| + 1
    ensures IdsPartition(Inserted(t, value)) && |Inserted(t, value).values| == |t.values| + 1
  {
  }

  /** The value is found under its id, other values stay, and ids given back are used first come first served. */
  lemma {:induction false} InsertedExactly<V>(t: Table<V>, value: V)
    ensures var next := Inserted(t, value);
            && next.values == t.values[NextId(t) := value]
            && (t.free != [] ==> t.free == [NextId(t)] + next.free)
            && (t.free == [] ==> next.free == [] && NextId(t) == |t.values| + 1)
            && next.nameId == t.nameId && next.idNames == t.idNames
  {
  }

  lemma {:induction false} InsertKeepsNames<V>(t: Table<V>, value: V)
    requires NamesLead(t)
    ensures NamesLead(Inserted(t, value))
  {
  }

  lemma {:induction false} RenameKeepsNames<V>(t: Table<V>, id: nat, name: string)
    requires NamesLead(t) && id in t.values
    ensures NamesLead(Renamed(t, id, name))
    ensures Find(Renamed(t, id, name), name) == Some(t.values[id])
    ensures forall other :: other != name ==> Find(Renamed(t, id, name), other) == Find(t, other)
    ensures id in t.idNames ==> t.idNames[id] + [name] == Renamed(t, id, name).idNames[id]
    ensures id !in t.idNames ==> Renamed(t, id, name).idNames[id] == [name]
  {
  }

  class InnerMap<V> {
    var values: map<nat, V>
    var nameId: map<string, nat>
    var idNames: map<nat, seq<string>>
    var free: seq<nat>

    constructor ()
      ensures Value() == EmptyTable()
    {
      values, nameId, idNames, free := map[], map[], map[], [];
    }

    ghost function Value(): Table<V>
      reads this
    {
      Table(values, nameId, idNames, free)
    }

    method Insert(value: V) returns (id: nat)
      modifies this
      ensures id == NextId(old(Value())) && Value() == Inserted(old(Value()), value)
    {
      if free != [] {
        id := free[0];
        free := free[1..];
      } else {
        id := |values| + 1;
      }
      values := values[id := value];
    }

    method SetName(id: nat, name: string)
      modifies this
      ensures Value() == Renamed(old(Value()), id, name)
    {
      nameId := nameId[name := id];
      if id in idNames {
        idNames := idNames[id := idNames[id] + [name]];
      } else {
        assert [] + [name] == [name];
        idNames := idNames[id := [name]];
      }
    }

    method InsertWithName(value: V, name: string) returns (id: nat)
      requires IdsPartition(Value()) && NamesLead(Value())
      modifies this
      ensures id == NextId(old(Value())) && Value() == Renamed(Inserted(old(Value()), value), id, name)
      ensures id !in old(values) && IdsPartition(Value()) && NamesLead(Value())
      ensures Find(Value(), name) == Some(value)
      ensures forall other :: other in old(values) ==> other in values && values[other] == old(values)[other]
    {
      InsertFresh(Value(), value);
      InsertKeepsNames(Value(), value);
      id := Insert(value);
      RenameKeepsNames(Value(), id, name);
      SetName(id, name);
    }

    /** Under `NamesLead` every name in use is found, and leads to a value listed with it. */
    method GetByName(name: string) returns (value: Option<V>)
      ensures value == Find(Value(), name)
      ensures NamesLead(Value()) ==> (value.Some? <==> name in nameId)
      ensures NamesLead(Value()) && value.Some? ==>
                exists id :: id in values && values[id] == value.value && id in idNames && name in idNames[id]
    {
      if name in nameId {
        var id := nameId[name];
        value := if id in values then Some(values[id]) else None;
      } else {
        value := None;
      }
    }
  }
}
