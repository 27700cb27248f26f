/** `POST /api/storeTopic` (src/pages/api/storeTopic.js): appends a `topics`
    document. Only the insert is inside the `try`. Database calls: 0
    connect, 1 insert. */
module StoreTopicRoute {
  import opened Js
  import opened JsonData
  import opened Store

  const RequiredMessage := "Topic and UUID are required."
  const FailedMessage := "Failed to store topic in the database."

  function TopicDoc(uuid: Json, topic: Json): Doc
  {
    map["uuid" := uuid, "topicName" := topic]
  }

  predicate ValidBody(req: Request)
  {
    TruthyAccess(BodyField(req, "topic")) && TruthyAccess(BodyField(req, "uuid"))
  }

  /** The route handler. */
  method Handle(db: Database, req: Request, fault: DbFault) returns (res: Response)
    modifies db
    ensures req.httpMethod != "POST" ==> res == Sent(405, None) && db.store == old(db.store)
    ensures req.httpMethod == "POST" && req.body.JNull? ==> res == Crashed && db.store == old(db.store)
    ensures req.httpMethod == "POST" && !req.body.JNull? && !ValidBody(req) ==>
              res == JsonResponse(400, ErrorJson(RequiredMessage)) && db.store == old(db.store)
    ensures req.httpMethod == "POST" && ValidBody(req) ==>
      && (FaultAt(fault, 0).Some? ==> res == Crashed && db.store == old(db.store))
      && (FaultAt(fault, 1).Some? ==> res == JsonResponse(500, ErrorJson(FailedMessage)) && db.store == old(db.store))
      && (FaultAt(fault, 0).None? && FaultAt(fault, 1).None? ==>
            res == JsonResponse(200, JObj(map["success" := JBool(true)]))
            && db.store == old(db.store).(topics := old(db.store).topics
                                                  + [TopicDoc(BodyField(req, "uuid").value, BodyField(req, "topic").value)]))
  {
    if req.httpMethod != "POST" {
      return Sent(405, None);
    }
    var topic := BodyField(req, "topic");
    var uuid := BodyField(req, "uuid");
    if topic.TypeError? {
      return Crashed;
    }
    if !TruthyAccess(topic) || !TruthyAccess(uuid) {
      return JsonResponse(400, ErrorJson(RequiredMessage));
    }
    if FaultAt(fault, 0).Some? {
      return Crashed;
    }
    if FaultAt(fault, 1).Some? {
      return JsonResponse(500, ErrorJson(FailedMessage));
    }
    db.InsertOne(Topics, TopicDoc(uuid.value, topic.value));
    res := JsonResponse(200, JObj(map["success" := JBool(true)]));
  }
}
