/** `GET /api/getUserAnswers?sessionID=` (src/pages/api/getUserAnswers.js):
    the whole first `quizSessions` document of the session. There is no
    check for a missing `sessionID`: the lookup then runs with `undefined`.
    Database calls: 0 connect, 1 find. Nothing is written. */
module GetUserAnswersRoute {
  import opened Js
  import opened JsonData
  import opened Store

  const MethodNotAllowedMessage := "Method not allowed. Please use GET."
  const NotFoundMessage := "Failed to get user answers. Session not found."
  const ErrorPrefix := "Error getting user answers: "

  /** The route handler; it only reads the `quizSessions` collection. */
  function Handle(s: Store, req: Request, fault: DbFault): (res: Response)
    ensures req.httpMethod != "GET" ==> res == JsonResponse(405, ErrorJson(MethodNotAllowedMessage))
    ensures res != Crashed && res.body.Some?
    ensures req.httpMethod == "GET" && (FaultAt(fault, 0).Some? || FaultAt(fault, 1).Some?) ==>
              res == JsonResponse(500, ErrorJson(ErrorPrefix + fault.message))
    ensures req.httpMethod == "GET" && FaultAt(fault, 0).None? && FaultAt(fault, 1).None? ==>
              var session := FindFirst(s.quizSessions, "sessionID", QueryKey(QueryField(req, "sessionID")));
              && (session.Some? ==> res == JsonResponse(200, JObj(session.value)))
              && (session.None? ==> res == JsonResponse(404, ErrorJson(NotFoundMessage)))
  {
    if req.httpMethod != "GET" then JsonResponse(405, ErrorJson(MethodNotAllowedMessage))
    else if FaultAt(fault, 0).Some? || FaultAt(fault, 1).Some? then JsonResponse(500, ErrorJson(ErrorPrefix + fault.message))
    else match FindFirst(s.quizSessions, "sessionID", QueryKey(QueryField(req, "sessionID")))
      case Some(session) => JsonResponse(200, JObj(session))
      case None => JsonResponse(404, ErrorJson(NotFoundMessage))
  }

  /** Without a `sessionID` the lookup is for `null`, which finds the first
      session stored without one, if any. */
  lemma MissingSessionIdMatchesNull(s: Store, req: Request)
    requires req.httpMethod == "GET" && "sessionID" !in req.query
    requires |s.quizSessions| >= 1 && "sessionID" !in s.quizSessions[0]
    ensures Handle(s, req, NoFault) == JsonResponse(200, JObj(s.quizSessions[0]))
  {
  }
}
