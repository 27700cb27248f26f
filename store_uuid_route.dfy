/** `/api/storeUUID` (src/pages/api/storeUUID.js): makes up a user id
    `<v4>-<now>`, appends it to `uuids` and answers it. Any method is
    accepted and nothing is caught. `uuidv4()` and `Date.now()` are
    parameters. Database calls: 0 connect, 1 insert. */
module StoreUuidRoute {
  import opened Js
  import opened JsonData
  import opened Store

  /** The id handed out for a random part and a time. */
  function NewUuid(v4: string, now: nat): string
  {
    v4 + "-" + NatToDecimal(now)
  }

  /** The route handler. */
  method Handle(db: Database, v4: string, now: nat, fault: DbFault) returns (res: Response)
    modifies db
    ensures FaultAt(fault, 0).Some? || FaultAt(fault, 1).Some? ==> res == Crashed && db.store == old(db.store)
    ensures FaultAt(fault, 0).None? && FaultAt(fault, 1).None? ==>
              && res == JsonResponse(200, JObj(map["uuid" := JStr(NewUuid(v4, now))]))
              && db.store == old(db.store).(uuids := old(db.store).uuids + [map["uuid" := JStr(NewUuid(v4, now))]])
  {
    if FaultAt(fault, 0).Some? {
      return Crashed;
    }
    var newUuid := NewUuid(v4, now);
    if FaultAt(fault, 1).Some? {
      return Crashed;
    }
    db.InsertOne(Uuids, map["uuid" := JStr(newUuid)]);
    res := JsonResponse(200, JObj(map["uuid" := JStr(newUuid)]));
  }

  /** Two ids made from the same random part at different times differ:
      the time can be read back from the part after the random one. */
  lemma NewUuidDistinct(v4: string, now1: nat, now2: nat)
    ensures NewUuid(v4, now1)[|v4| + 1..] == NatToDecimal(now1)
    ensures NewUuid(v4, now1) == NewUuid(v4, now2) ==> now1 == now2
  {
    assert NewUuid(v4, now1)[|v4| + 1..] == NatToDecimal(now1);
    assert NewUuid(v4, now2)[|v4| + 1..] == NatToDecimal(now2);
    DecimalRoundTrip(now1);
    DecimalRoundTrip(now2);
  }
}
