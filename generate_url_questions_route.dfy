/** `POST /api/generateUrlQuestions` (src/pages/api/generateUrlQuestions.js):
    validates `url` and `uuid`, asks the model for questions about the page
    first, then appends a `questions` document — without deleting earlier
    ones — and a `urls` document. Database calls: 0 connect, 1 insert
    question set, 2 insert URL. */
module GenerateUrlQuestionsRoute {
  import opened Js
  import opened JsonData
  import opened Store

  const RequiredMessage := "URL and UUID are required."

  function QuestionSetDoc(uuid: Json, questions: Json, url: Json): Doc
  {
    map["uuid" := uuid, "questions" := questions, "url" := url]
  }

  function UrlDoc(uuid: Json, url: Json): Doc
  {
    map["uuid" := uuid, "urlName" := url]
  }

  predicate ValidBody(req: Request)
  {
    TruthyAccess(BodyField(req, "url")) && TruthyAccess(BodyField(req, "uuid"))
  }

  /** The route handler; `generate` is `generateUrlTriviaQuestions`. */
  method Handle(db: Database, req: Request, generate: Json -> Result<Json, Thrown>, fault: DbFault) returns (res: Response)
    modifies db
    ensures req.httpMethod != "POST" ==> res == Sent(405, None) && db.store == old(db.store)
    ensures req.httpMethod == "POST" && req.body.JNull? ==> res == Crashed && db.store == old(db.store)
    ensures req.httpMethod == "POST" && !req.body.JNull? && !ValidBody(req) ==>
              res == JsonResponse(400, ErrorJson(RequiredMessage)) && db.store == old(db.store)
    ensures req.httpMethod == "POST" && ValidBody(req) ==>
      var url := BodyField(req, "url").value;
      var uuid := BodyField(req, "uuid").value;
      var g := generate(url);
      && (g.Failure? ==> res == JsonResponse(500, CaughtErrorJson(g.error)) && db.store == old(db.store))
      && (g.Success? && FaultAt(fault, 0).Some? ==>
            res == JsonResponse(500, ErrorJson(fault.message)) && db.store == old(db.store))
      && (g.Success? && FaultAt(fault, 1).Some? ==>
            res == JsonResponse(500, ErrorJson(fault.message)) && db.store == old(db.store))
      && (g.Success? && FaultAt(fault, 2).Some? ==>
            res == JsonResponse(500, ErrorJson(fault.message))
            && db.store == old(db.store).(questions := old(db.store).questions + [QuestionSetDoc(uuid, g.value, url)]))
      && (g.Success? && (forall k :: 0 <= k <= 2 ==> FaultAt(fault, k).None?) ==>
            res == JsonResponse(200, JObj(map["success" := JBool(true), "questions" := g.value]))
            && db.store == old(db.store).(questions := old(db.store).questions + [QuestionSetDoc(uuid, g.value, url)],
                                          urls := old(db.store).urls + [UrlDoc(uuid, url)]))
  {
    if req.httpMethod != "POST" {
      return Sent(405, None);
    }
    var url := BodyField(req, "url");
    var uuid := BodyField(req, "uuid");
    if url.TypeError? {
      return Crashed;
    }
    if !TruthyAccess(url) || !TruthyAccess(uuid) {
      return JsonResponse(400, ErrorJson(RequiredMessage));
    }
    var generated := generate(url.value);
    if generated.Failure? {
      return JsonResponse(500, CaughtErrorJson(generated.error));
    }
    var questions := generated.value;
    if FaultAt(fault, 0).Some? || FaultAt(fault, 1).Some? {
      return JsonResponse(500, ErrorJson(fault.message));
    }
    db.InsertOne(Questions, QuestionSetDoc(uuid.value, questions, url.value));
    if FaultAt(fault, 2).Some? {
      return JsonResponse(500, ErrorJson(fault.message));
    }
    db.InsertOne(Urls, UrlDoc(uuid.value, url.value));
    res := JsonResponse(200, JObj(map["success" := JBool(true), "questions" := questions]));
  }

  /** Each successful call adds one question set for its key, and a key that
      already had one keeps being answered with the oldest by `findOne`. */
  lemma AppendAccumulates(docs: seq<Doc>, uuid: Json, questions: Json, url: Json)
    requires !uuid.JNull?
    ensures CountMatches(docs + [QuestionSetDoc(uuid, questions, url)], "uuid", uuid) == CountMatches(docs, "uuid", uuid) + 1
    ensures FindFirst(docs, "uuid", uuid).Some? ==>
              FindFirst(docs + [QuestionSetDoc(uuid, questions, url)], "uuid", uuid) == FindFirst(docs, "uuid", uuid)
  {
    InsertCount(docs, QuestionSetDoc(uuid, questions, url), "uuid", uuid);
    if FindFirst(docs, "uuid", uuid).Some? {
      AppendKeepsFound(docs, QuestionSetDoc(uuid, questions, url), "uuid", uuid);
    }
  }
}
