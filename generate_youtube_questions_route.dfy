/** `POST /api/generateYoutubeQuestions` (src/pages/api/generateYoutubeQuestions.js):
    looks up the stored transcript of the `uuid`, generates questions from
    it chunk by chunk, and replaces the `youtubeQuestions` document of the
    `uuid`. Database calls: 0 connect, 1 find transcript, 2 delete, 3 insert.
    The `questions` collection and the transcripts are never written. */
module GenerateYoutubeQuestionsRoute {
  import opened Js
  import opened JsonData
  import opened Store
  import opened YoutubeQuestions

  const RequiredMessage := "UUID is required."
  const NotFoundMessage := "Transcript not found for the given UUID."

  function QuestionSetDoc(uuid: Json, questions: Json): Doc
  {
    map["uuid" := uuid, "questions" := questions]
  }

  /** The `transcript` of the first transcript document of the key, when it is truthy. */
  function StoredTranscript(s: Store, uuid: Json): (r: Option<Json>)
    ensures r.Some? ==> Truthy(r.value)
    ensures r.None? <==> (FindFirst(s.youtubeTranscripts, "uuid", uuid).None?
                          || !TruthyAccess(Member(JObj(FindFirst(s.youtubeTranscripts, "uuid", uuid).value), "transcript")))
  {
    match FindFirst(s.youtubeTranscripts, "uuid", uuid)
    case None => None
    case Some(doc) =>
      if "transcript" in doc && Truthy(doc["transcript"]) then Some(doc["transcript"]) else None
  }

  /** The questions the chunked generation gathers from a transcript's segments. */
  function Gathered(segments: seq<Segment>, complete: (nat, string) -> Reply): Json
  {
    JArr(Collect(Prompts(segments), complete))
  }

  /** The route handler; `complete(i, chunk)` is the model's reply to the
      `i`-th chunk prompt. */
  method Handle(db: Database, req: Request, complete: (nat, string) -> Reply, fault: DbFault) returns (res: Response)
    modifies db
    ensures req.httpMethod != "POST" ==> res == Sent(405, None) && db.store == old(db.store)
    ensures req.httpMethod == "POST" && req.body.JNull? ==> res == Crashed && db.store == old(db.store)
    ensures req.httpMethod == "POST" && !req.body.JNull? && !TruthyAccess(BodyField(req, "uuid")) ==>
              res == JsonResponse(400, ErrorJson(RequiredMessage)) && db.store == old(db.store)
    ensures req.httpMethod == "POST" && TruthyAccess(BodyField(req, "uuid")) ==>
      var uuid := BodyField(req, "uuid").value;
      var t := StoredTranscript(old(db.store), uuid);
      && (FaultAt(fault, 0).Some? || FaultAt(fault, 1).Some? ==>
            res == JsonResponse(500, ErrorJson(fault.message)) && db.store == old(db.store))
      && (FaultAt(fault, 0).None? && FaultAt(fault, 1).None? && t.None? ==>
            res == JsonResponse(404, ErrorJson(NotFoundMessage)) && db.store == old(db.store))
      && (FaultAt(fault, 0).None? && FaultAt(fault, 1).None? && t.Some? && TranscriptSegments(t.value).Failure? ==>
            res == JsonResponse(500, ErrorJson(TranscriptSegments(t.value).error)) && db.store == old(db.store))
      && (FaultAt(fault, 0).None? && FaultAt(fault, 1).None? && t.Some? && TranscriptSegments(t.value).Success? ==>
            var questions := Gathered(TranscriptSegments(t.value).value, complete);
            && (FaultAt(fault, 2).Some? ==>
                  res == JsonResponse(500, ErrorJson(fault.message)) && db.store == old(db.store))
            && (FaultAt(fault, 3).Some? ==>
                  res == JsonResponse(500, ErrorJson(fault.message))
                  && db.store == old(db.store).(youtubeQuestions := DeleteFirst(old(db.store).youtubeQuestions, "uuid", uuid)))
            && (FaultAt(fault, 2).None? && FaultAt(fault, 3).None? ==>
                  res == JsonResponse(200, JObj(map["success" := JBool(true), "questions" := questions]))
                  && db.store == old(db.store).(youtubeQuestions := DeleteFirst(old(db.store).youtubeQuestions, "uuid", uuid)
                                                                    + [QuestionSetDoc(uuid, questions)])))
  {
    if req.httpMethod != "POST" {
      return Sent(405, None);
    }
    var uuid := BodyField(req, "uuid");
    if uuid.TypeError? {
      return Crashed;
    }
    if !TruthyAccess(uuid) {
      return JsonResponse(400, ErrorJson(RequiredMessage));
    }
    if FaultAt(fault, 0).Some? || FaultAt(fault, 1).Some? {
      return JsonResponse(500, ErrorJson(fault.message));
    }
    ghost var t := StoredTranscript(db.store, uuid.value);
    var transcriptData := db.FindOne(YoutubeTranscripts, "uuid", uuid.value);
    if transcriptData.None? || !("transcript" in transcriptData.value && Truthy(transcriptData.value["transcript"])) {
      assert t.None?;
      return JsonResponse(404, ErrorJson(NotFoundMessage));
    }
    assert t == Some(transcriptData.value["transcript"]);
    var segments := TranscriptSegments(transcriptData.value["transcript"]);
    if segments.Failure? {
      return JsonResponse(500, ErrorJson(segments.error));
    }
    var gathered, prompts := GenerateYoutubeTriviaQuestions(segments.value, complete);
    var questions := JArr(gathered);
    if FaultAt(fault, 2).Some? {
      return JsonResponse(500, ErrorJson(fault.message));
    }
    db.DeleteOne(YoutubeQuestions, "uuid", uuid.value);
    if FaultAt(fault, 3).Some? {
      return JsonResponse(500, ErrorJson(fault.message));
    }
    db.InsertOne(YoutubeQuestions, QuestionSetDoc(uuid.value, questions));
    res := JsonResponse(200, JObj(map["success" := JBool(true), "questions" := questions]));
  }

  /** When every chunk's call fails the route still succeeds, with no questions. */
  lemma AllChunksFailing(segments: seq<Segment>, complete: (nat, string) -> Reply)
    requires forall i :: 0 <= i < |Prompts(segments)| ==> complete(i, Prompts(segments)[i]).Failed?
    ensures Gathered(segments, complete) == JArr([])
  {
    CollectAllFailed(Prompts(segments), complete);
  }
}
