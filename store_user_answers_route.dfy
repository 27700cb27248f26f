/** `POST /api/storeUserAnswers` (src/pages/api/storeUserAnswers.js): sets
    the `userAnswers` of the `quizSessions` document of a session, creating
    the document when there is none, and makes up a session id when the
    body has none. The connection is made outside the `try`. `uuidv4()` and
    `Date.now()` are parameters. Database calls: 0 connect, 1 update. */
module StoreUserAnswersRoute {
  import opened Js
  import opened JsonData
  import opened Store

  const RequiredMessage := "userAnswers are required."
  const StoredMessage := "User answers stored successfully."
  const NotFoundMessage := "Failed to store user answers. Session not found."
  const ErrorPrefix := "Error storing user answers: "

  /** The session id the handler files the answers under: the body's own
      when it is truthy, else `<v4>-<now>`. */
  function NewSessionId(sessionId: Access, v4: string, now: nat): (r: Json)
    requires !sessionId.TypeError?
    ensures TruthyAccess(sessionId) ==> r == sessionId.value
    ensures !TruthyAccess(sessionId) ==> r == JStr(v4 + "-" + NatToDecimal(now))
    ensures Truthy(r)
  {
    if TruthyAccess(sessionId) then sessionId.value else JStr(v4 + "-" + NatToDecimal(now))
  }

  /** The route handler. */
  method Handle(db: Database, req: Request, v4: string, now: nat, fault: DbFault) returns (res: Response)
    modifies db
    ensures req.httpMethod != "POST" ==> res == Sent(405, None) && db.store == old(db.store)
    ensures req.httpMethod == "POST" && req.body.JNull? ==> res == Crashed && db.store == old(db.store)
    ensures req.httpMethod == "POST" && !req.body.JNull? && !TruthyAccess(BodyField(req, "userAnswers")) ==>
              res == JsonResponse(400, ErrorJson(RequiredMessage)) && db.store == old(db.store)
    ensures req.httpMethod == "POST" && TruthyAccess(BodyField(req, "userAnswers")) ==>
      var answers := BodyField(req, "userAnswers").value;
      var id := NewSessionId(BodyField(req, "sessionID"), v4, now);
      var u := UpsertSet(old(db.store).quizSessions, "sessionID", id, "userAnswers", answers);
      && (FaultAt(fault, 0).Some? ==> res == Crashed && db.store == old(db.store))
      && (FaultAt(fault, 1).Some? ==>
            res == JsonResponse(500, ErrorJson(ErrorPrefix + fault.message)) && db.store == old(db.store))
      && (FaultAt(fault, 0).None? && FaultAt(fault, 1).None? ==>
            && db.store == old(db.store).(quizSessions := u.0)
            && (u.1.modifiedCount == 1 || u.1.upsertedCount == 1 ==>
                  res == JsonResponse(200, JObj(map["message" := JStr(StoredMessage), "sessionID" := id])))
            && (u.1.modifiedCount != 1 && u.1.upsertedCount != 1 ==>
                  res == JsonResponse(404, ErrorJson(NotFoundMessage))))
  {
    if req.httpMethod != "POST" {
      return Sent(405, None);
    }
    var sessionId := BodyField(req, "sessionID");
    var userAnswers := BodyField(req, "userAnswers");
    if userAnswers.TypeError? {
      return Crashed;
    }
    if !TruthyAccess(userAnswers) {
      return JsonResponse(400, ErrorJson(RequiredMessage));
    }
    if FaultAt(fault, 0).Some? {
      return Crashed;
    }
    var newSessionId := NewSessionId(sessionId, v4, now);
    if FaultAt(fault, 1).Some? {
      return JsonResponse(500, ErrorJson(ErrorPrefix + fault.message));
    }
    var result := db.UpdateOne(QuizSessions, "sessionID", newSessionId, "userAnswers", userAnswers.value);
    if result.modifiedCount == 1 || result.upsertedCount == 1 {
      res := JsonResponse(200, JObj(map["message" := JStr(StoredMessage), "sessionID" := newSessionId]));
    } else {
      res := JsonResponse(404, ErrorJson(NotFoundMessage));
    }
  }

  /** A session with no stored answers, or other ones, is always answered 200. */
  lemma NewAnswersAreStored(docs: seq<Doc>, id: Json, answers: Json)
    requires !(FindFirst(docs, "sessionID", id).Some? && "userAnswers" in FindFirst(docs, "sessionID", id).value
               && FindFirst(docs, "sessionID", id).value["userAnswers"] == answers)
    ensures var u := UpsertSet(docs, "sessionID", id, "userAnswers", answers).1;
            u.modifiedCount == 1 || u.upsertedCount == 1
  {
  }

  /** Submitting the answers a session already holds changes nothing and is
      answered 404 "Session not found", although the session exists. */
  lemma ResubmitIsNotFound(docs: seq<Doc>, id: Json, answers: Json)
    requires FindFirst(docs, "sessionID", id).Some? && "userAnswers" in FindFirst(docs, "sessionID", id).value
    requires FindFirst(docs, "sessionID", id).value["userAnswers"] == answers
    ensures var u := UpsertSet(docs, "sessionID", id, "userAnswers", answers);
            u.0 == docs && u.1.modifiedCount != 1 && u.1.upsertedCount != 1
  {
    UpsertSameValue(docs, "sessionID", id, "userAnswers", answers);
  }
}
