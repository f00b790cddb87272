/** The in-memory film repository. */
module Films {
  import opened ByteStrings
  import opened Wrappers

  datatype FilmRecord = FilmRecord(tenantID: string, id: string, title: string, timeElapsedCT: Bytes)

  /** The tenant's rows in order. */
  function OfTenant(films: seq<FilmRecord>, tenantID: string): seq<FilmRecord> {
    if films == [] then []
    else
      OfTenant(films[..|films| - 1], tenantID) +
      if films[|films| - 1].tenantID == tenantID then [films[|films| - 1]] else []
  }

  predicate Matches(f: FilmRecord, tenantID: string, id: string) {
    f.tenantID == tenantID && f.id == id
  }

  /** The first row with the tenant and id, or one past the end: ids are not unique. */
  function FirstMatch(films: seq<FilmRecord>, tenantID: string, id: string): (i: nat)
    ensures i <= |films| && (i < |films| ==> Matches(films[i], tenantID, id))
    ensures forall j :: 0 <= j < i ==> !Matches(films[j], tenantID, id)
  {
    FirstMatchFrom(films, tenantID, id, 0)
  }

  function FirstMatchFrom(films: seq<FilmRecord>, tenantID: string, id: string, start: nat): (i: nat)
    requires start <= |films| && forall j :: 0 <= j < start ==> !Matches(films[j], tenantID, id)
    ensures start <= i <= |films| && (i < |films| ==> Matches(films[i], tenantID, id))
    ensures forall j :: 0 <= j < i ==> !Matches(films[j], tenantID, id)
    decreases |films| - start
  {
    if start == |films| || Matches(films[start], tenantID, id) then start
    else FirstMatchFrom(films, tenantID, id, start + 1)
  }

  /** The one id the generator ever makes. */
  const GENERATED_ID := "film-abcdefgh"

  const LETTERS: Bytes := "abcdefghijklmnopqrstuvwxyz0123456789"

  /** `randomString`: not random at all. */
  method RandomString(n: nat) returns (s: Bytes)
    ensures |s| == n && forall i :: 0 <= i < n ==> s[i] == LETTERS[i % |LETTERS|]
  {
    var b := new byte[n](_ => 'a');
    for i := 0 to n
      invariant forall j :: 0 <= j < i ==> b[j] == LETTERS[j % |LETTERS|]
    {
      b[i] := LETTERS[i % |LETTERS|];
    }
    s := b[..];
  }

  method GenerateID() returns (id: string)
    ensures id == GENERATED_ID
  {
    var suffix := RandomString(8);
    assert suffix == "abcdefgh";
    id := "film-" + suffix;
  }

  class FilmRepository {
    var films: seq<FilmRecord>

    constructor (seed: seq<FilmRecord>)
      ensures films == seed
    {
      films := seed;
    }

    method ListByTenant(tenantID: string) returns (out: seq<FilmRecord>)
      ensures out == OfTenant(films, tenantID)
    {
      out := [];
      for i := 0 to |films|
        invariant out == OfTenant(films[..i], tenantID)
      {
        assert films[..i + 1][..i] == films[..i];
        if films[i].tenantID == tenantID {
          out := out + [films[i]];
        }
      }
      assert films[..|films|] == films;
    }

    method UpdateTimeCiphertext(tenantID: string, filmID: string, ciphertext: Bytes) returns (r: Option<FilmRecord>)
      modifies this
      ensures
        var i := FirstMatch(old(films), tenantID, filmID);
        if i == |old(films)| then r.None? && films == old(films)
        else
          var updated := old(films)[i].(timeElapsedCT := ciphertext);
          r == Some(updated) && films == old(films)[i := updated]
    {
      for i := 0 to |films|
        invariant films == old(films)
        invariant forall j :: 0 <= j < i ==> !Matches(films[j], tenantID, filmID)
      {
        if films[i].tenantID == tenantID && films[i].id == filmID {
          assert FirstMatch(films, tenantID, filmID) == i;
          films := films[i := films[i].(timeElapsedCT := ciphertext)];
          return Some(films[i]);
        }
      }
      return None;
    }

    method Create(tenantID: string, title: string, timeElapsedCT: Bytes) returns (record: FilmRecord)
      modifies this
      ensures record == FilmRecord(tenantID, GENERATED_ID, title, timeElapsedCT)
      ensures films == old(films) + [record]
    {
      var id := GenerateID();
      record := FilmRecord(tenantID, id, title, timeElapsedCT);
      films := films + [record];
    }
  }
}
