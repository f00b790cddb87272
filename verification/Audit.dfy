/** The audit log the services write. The lists of field names are kept as multisets: the
    order inside one entry follows map iteration and means nothing. */
module Audit {
  import opened PolicyTypes
  import opened Decimal

  datatype Details =
    | NoDetails
    | FilmCreated(title: string, newTimeElapsed: int64, filmID: string)
    | InHall(hallID: string)
    | Found(count: nat)

  datatype Entry = Entry(
    requestID: string, tenantID: string, userID: string, role: string, action: string, resourceType: string,
    resourceID: string, outcome: string, decisionHash: string, details: Details,
    decrypted: multiset<string>, masked: multiset<string>, denied: multiset<string>)

  function NewEntry(p: Principal, request: RequestContext, action: string, resourceType: string, resourceID: string,
                    outcome: string, decisionHash: string, details: Details,
                    decrypted: multiset<string>, masked: multiset<string>, denied: multiset<string>): Entry
  {
    Entry(request.requestID, p.tenantID, p.userID, p.role, action, resourceType, resourceID, outcome, decisionHash,
      details, decrypted, masked, denied)
  }

  /** A writer that never fails. */
  class Writer {
    var entries: seq<Entry>

    constructor ()
      ensures entries == []
    {
      entries := [];
    }

    method Write(e: Entry)
      modifies this
      ensures entries == old(entries) + [e]
    {
      entries := entries + [e];
    }
  }

  /** `mapKeys`: every key once, in map order. */
  method MapKeys(m: set<string>) returns (keys: seq<string>)
    ensures multiset(keys) == multiset(m)
  {
    keys := [];
    var rest := m;
    while rest != {}
      invariant rest <= m && multiset(keys) == multiset(m - rest)
      decreases rest
    {
      var k :| k in rest;
      assert m - (rest - {k}) == (m - rest) + {k};
      keys := keys + [k];
      rest := rest - {k};
    }
    assert m - rest == m;
  }
}
