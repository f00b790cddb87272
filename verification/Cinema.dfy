/** The in-memory hall and spectator repositories. */
module Cinema {
  import opened ByteStrings
  import opened Wrappers
  import Pep

  datatype Hall = Hall(tenantID: string, id: string, name: string, ownerUserID: string, currentFilmID: string)

  datatype Spectator = Spectator(tenantID: string, id: string, hallID: string, row: Pep.SpectatorRow, lookup: Bytes)

  function FindHall(halls: seq<Hall>, tenantID: string, id: string): Option<Hall> {
    if halls == [] then None
    else if halls[0].tenantID == tenantID && halls[0].id == id then Some(halls[0])
    else FindHall(halls[1..], tenantID, id)
  }

  predicate HasHall(halls: seq<Hall>, tenantID: string, id: string) {
    exists i :: 0 <= i < |halls| && halls[i].tenantID == tenantID && halls[i].id == id
  }

  lemma {:induction false} FindHallFinds(halls: seq<Hall>, tenantID: string, id: string)
    ensures FindHall(halls, tenantID, id).Some? <==> HasHall(halls, tenantID, id)
    ensures
      var found := FindHall(halls, tenantID, id);
      found.Some? ==> found.value in halls && found.value.tenantID == tenantID && found.value.id == id
  {
    if halls != [] {
      FindHallFinds(halls[1..], tenantID, id);
      if i :| 0 <= i < |halls| && halls[i].tenantID == tenantID && halls[i].id == id {
        if i > 0 { assert halls[1..][i - 1] == halls[i]; }
      }
      if j :| 0 <= j < |halls[1..]| && halls[1..][j].tenantID == tenantID && halls[1..][j].id == id {
        assert halls[j + 1] == halls[1..][j];
      }
    }
  }

  lemma {:induction false} FindHallSkips(halls: seq<Hall>, tenantID: string, id: string, i: nat)
    requires i <= |halls| && forall j :: 0 <= j < i ==> !(halls[j].tenantID == tenantID && halls[j].id == id)
    ensures FindHall(halls, tenantID, id) == FindHall(halls[i..], tenantID, id)
  {
    if i > 0 {
      FindHallSkips(halls[1..], tenantID, id, i - 1);
      assert halls[1..][i - 1..] == halls[i..];
    }
  }

  class HallRepository {
    var halls: seq<Hall>
    var spectatorCounts: map<string, nat>

    constructor (halls: seq<Hall>)
      ensures this.halls == halls && spectatorCounts == map[]
    {
      this.halls := halls;
      spectatorCounts := map[];
    }

    method Create(hall: Hall)
      modifies this
      ensures halls == old(halls) + [hall] && spectatorCounts == old(spectatorCounts)[hall.id := 0]
    {
      halls := halls + [hall];
      spectatorCounts := spectatorCounts[hall.id := 0];
    }

    method FindByID(tenantID: string, hallID: string) returns (hall: Option<Hall>)
      ensures hall == FindHall(halls, tenantID, hallID)
    {
      for i := 0 to |halls|
        invariant forall j :: 0 <= j < i ==> !(halls[j].tenantID == tenantID && halls[j].id == hallID)
      {
        if halls[i].tenantID == tenantID && halls[i].id == hallID {
          FindHallSkips(halls, tenantID, hallID, i);
          return Some(halls[i]);
        }
      }
      FindHallSkips(halls, tenantID, hallID, |halls|);
      return None;
    }
  }

  /** The tenant's rows with a given lookup value, in creation order. */
  function ByLookup(spectators: seq<Spectator>, tenantID: string, lookup: Bytes): seq<Spectator> {
    if spectators == [] then []
    else
      var s := spectators[|spectators| - 1];
      ByLookup(spectators[..|spectators| - 1], tenantID, lookup)
      + if s.tenantID == tenantID && s.lookup == lookup then [s] else []
  }

  function CountIn(spectators: seq<Spectator>, tenantID: string, hallID: string): nat {
    if spectators == [] then 0
    else
      var s := spectators[|spectators| - 1];
      CountIn(spectators[..|spectators| - 1], tenantID, hallID)
      + if s.tenantID == tenantID && s.hallID == hallID then 1 else 0
  }

  class SpectatorRepository {
    var spectators: seq<Spectator>

    constructor ()
      ensures spectators == []
    {
      spectators := [];
    }

    method Create(s: Spectator)
      modifies this
      ensures spectators == old(spectators) + [s]
    {
      spectators := spectators + [s];
    }

    method FindByExternalIDLookup(tenantID: string, lookup: Bytes) returns (results: seq<Spectator>)
      ensures results == ByLookup(spectators, tenantID, lookup)
    {
      results := [];
      for i := 0 to |spectators|
        invariant results == ByLookup(spectators[..i], tenantID, lookup)
      {
        assert spectators[..i + 1][..i] == spectators[..i];
        if spectators[i].tenantID == tenantID && spectators[i].lookup == lookup {
          results := results + [spectators[i]];
        }
      }
      assert spectators[..|spectators|] == spectators;
    }

    method CountByHall(tenantID: string, hallID: string) returns (count: nat)
      ensures count == CountIn(spectators, tenantID, hallID)
    {
      count := 0;
      for i := 0 to |spectators|
        invariant count == CountIn(spectators[..i], tenantID, hallID)
      {
        assert spectators[..i + 1][..i] == spectators[..i];
        if spectators[i].tenantID == tenantID && spectators[i].hallID == hallID {
          count := count + 1;
        }
      }
      assert spectators[..|spectators|] == spectators;
    }
  }
}
