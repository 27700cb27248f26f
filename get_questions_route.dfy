/** `GET /api/getQuestions?uuid=` (src/pages/api/getQuestions.js): the
    question array of the first `questions` document of the key. The route
    has no `try`: a failing connection or lookup escapes the handler.
    Database calls: 0 connect, 1 find. Nothing is written. */
module GetQuestionsRoute {
  import opened Js
  import opened JsonData
  import opened Store

  const RequiredMessage := "UUID is required."
  const NotFoundMessage := "Questions not found for the given UUID."

  /** The route handler; it only reads the `questions` collection. */
  function Handle(s: Store, req: Request, fault: DbFault): (res: Response)
    ensures req.httpMethod != "GET" ==> res == Sent(405, None)
    ensures req.httpMethod == "GET" && !TruthyString(QueryField(req, "uuid")) ==>
              res == JsonResponse(400, ErrorJson(RequiredMessage))
    ensures req.httpMethod == "GET" && TruthyString(QueryField(req, "uuid")) && (FaultAt(fault, 0).Some? || FaultAt(fault, 1).Some?) ==>
              res == Crashed
    ensures res.Sent? && res.status == 200 <==>
              req.httpMethod == "GET" && TruthyString(QueryField(req, "uuid")) && FaultAt(fault, 0).None? && FaultAt(fault, 1).None?
              && var d := FindFirst(s.questions, "uuid", JStr(QueryField(req, "uuid").value));
                 d.Some? && "questions" in d.value && d.value["questions"].JArr?
    ensures res.Sent? && res.status == 200 ==>
              res.body == Some(FindFirst(s.questions, "uuid", JStr(QueryField(req, "uuid").value)).value["questions"])
    ensures res.Sent? && res.status == 404 ==> res.body == Some(ErrorJson(NotFoundMessage))
    ensures res.Sent? && res.status == 200 ==> res.body.Some? && res.body.value.JArr?
  {
    if req.httpMethod != "GET" then Sent(405, None)
    else
      var uuid := QueryField(req, "uuid");
      if !TruthyString(uuid) then JsonResponse(400, ErrorJson(RequiredMessage))
      else if FaultAt(fault, 0).Some? || FaultAt(fault, 1).Some? then Crashed
      else match FindFirst(s.questions, "uuid", JStr(uuid.value))
        case Some(data) =>
          if "questions" in data && data["questions"].JArr? then JsonResponse(200, data["questions"])
          else JsonResponse(404, ErrorJson(NotFoundMessage))
        case None => JsonResponse(404, ErrorJson(NotFoundMessage))
  }

  /** A key without a question set is answered 404, never an empty 200. */
  lemma UnknownKeyIsNotFound(s: Store, req: Request)
    requires req.httpMethod == "GET" && TruthyString(QueryField(req, "uuid"))
    requires forall j :: 0 <= j < |s.questions| ==> !Matches(s.questions[j], "uuid", JStr(QueryField(req, "uuid").value))
    ensures Handle(s, req, NoFault) == JsonResponse(404, ErrorJson(NotFoundMessage))
  {
  }
}
