/** `POST /api/generateQuestions` (src/pages/api/generateQuestions.js):
    validates `topic` and `uuid`, asks the model for questions before
    touching the database, then replaces the `questions` document of the
    `uuid` (delete one, insert one) and appends a `topics` document. Database
    calls: 0 connect, 1 delete, 2 insert question set, 3 insert topic. A
    failing call leaves the earlier writes in place. */
module GenerateQuestionsRoute {
  import opened Js
  import opened JsonData
  import opened Store

  const RequiredMessage := "Topic and UUID are required."

  /** The question set written for the key (its `createdAt` is not modelled). */
  function QuestionSetDoc(uuid: Json, questions: Json, topic: Json): Doc
  {
    map["uuid" := uuid, "questions" := questions, "topic" := topic]
  }

  function TopicDoc(uuid: Json, topic: Json): Doc
  {
    map["uuid" := uuid, "topicName" := topic]
  }

  /** Both fields are present and truthy. */
  predicate ValidBody(req: Request)
  {
    TruthyAccess(BodyField(req, "topic")) && TruthyAccess(BodyField(req, "uuid"))
  }

  /** The `questions` collection after the replace step. */
  function Replaced(s: Store, uuid: Json, questions: Json, topic: Json): seq<Doc>
  {
    DeleteFirst(s.questions, "uuid", uuid) + [QuestionSetDoc(uuid, questions, topic)]
  }

  /** The route handler. `generate` is `generateTriviaQuestions`: the
      questions the model returned for a topic, or what it threw. */
  method Handle(db: Database, req: Request, generate: Json -> Result<Json, Thrown>, fault: DbFault) returns (res: Response)
    modifies db
    ensures req.httpMethod != "POST" ==> res == Sent(405, None) && db.store == old(db.store)
    ensures req.httpMethod == "POST" && req.body.JNull? ==> res == Crashed && db.store == old(db.store)
    ensures req.httpMethod == "POST" && !req.body.JNull? && !ValidBody(req) ==>
              res == JsonResponse(400, ErrorJson(RequiredMessage)) && db.store == old(db.store)
    ensures req.httpMethod == "POST" && ValidBody(req) ==>
      var topic := BodyField(req, "topic").value;
      var uuid := BodyField(req, "uuid").value;
      var g := generate(topic);
      && (g.Failure? ==> res == JsonResponse(500, CaughtErrorJson(g.error)) && db.store == old(db.store))
      && (g.Success? && (FaultAt(fault, 0).Some? || FaultAt(fault, 1).Some?) ==>
            res == JsonResponse(500, ErrorJson(fault.message)) && db.store == old(db.store))
      && (g.Success? && FaultAt(fault, 2).Some? ==>
            res == JsonResponse(500, ErrorJson(fault.message))
            && db.store == old(db.store).(questions := DeleteFirst(old(db.store).questions, "uuid", uuid)))
      && (g.Success? && FaultAt(fault, 3).Some? ==>
            res == JsonResponse(500, ErrorJson(fault.message))
            && db.store == old(db.store).(questions := Replaced(old(db.store), uuid, g.value, topic)))
      && (g.Success? && (forall k :: 0 <= k <= 3 ==> FaultAt(fault, k).None?) ==>
            res == JsonResponse(200, JObj(map["success" := JBool(true), "questions" := g.value]))
            && db.store == old(db.store).(questions := Replaced(old(db.store), uuid, g.value, topic),
                                          topics := old(db.store).topics + [TopicDoc(uuid, topic)]))
  {
    if req.httpMethod != "POST" {
      return Sent(405, None);
    }
    var topic := BodyField(req, "topic");
    var uuid := BodyField(req, "uuid");
    if topic.TypeError? {
      return Crashed;
    }
    if !TruthyAccess(topic) || !TruthyAccess(uuid) {
      return JsonResponse(400, ErrorJson(RequiredMessage));
    }
    var generated := generate(topic.value);
    if generated.Failure? {
      return JsonResponse(500, CaughtErrorJson(generated.error));
    }
    var questions := generated.value;
    if FaultAt(fault, 0).Some? || FaultAt(fault, 1).Some? {
      return JsonResponse(500, ErrorJson(fault.message));
    }
    db.DeleteOne(Questions, "uuid", uuid.value);
    if FaultAt(fault, 2).Some? {
      return JsonResponse(500, ErrorJson(fault.message));
    }
    db.InsertOne(Questions, QuestionSetDoc(uuid.value, questions, topic.value));
    if FaultAt(fault, 3).Some? {
      return JsonResponse(500, ErrorJson(fault.message));
    }
    db.InsertOne(Topics, TopicDoc(uuid.value, topic.value));
    res := JsonResponse(200, JObj(map["success" := JBool(true), "questions" := questions]));
  }

  /** After a successful call on a key with at most one question set, the key
      has exactly one, the new one, and that is what a lookup finds. */
  lemma ReplaceLeavesOne(s: Store, uuid: Json, questions: Json, topic: Json)
    requires CountMatches(s.questions, "uuid", uuid) <= 1
    ensures CountMatches(Replaced(s, uuid, questions, topic), "uuid", uuid) == 1
    ensures FindFirst(Replaced(s, uuid, questions, topic), "uuid", uuid) == Some(QuestionSetDoc(uuid, questions, topic))
  {
    ReplaceFindsNew(s.questions, QuestionSetDoc(uuid, questions, topic), "uuid", uuid);
  }
}
