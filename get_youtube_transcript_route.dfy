/** `POST /api/getYoutubeTranscript` (src/pages/api/getYoutubeTranscript.js):
    takes the video id from the URL's `v` parameter, fetches the transcript
    and the video's details, and stores them in one `youtubeTranscripts`
    document. URL parsing, the transcript library and the YouTube Data API
    are oracles. Database calls: 0 connect, 1 insert. */
module GetYoutubeTranscriptRoute {
  import opened Js
  import opened JsonData
  import opened Store

  const RequiredMessage := "YouTube URL and UUID are required."
  const InvalidUrlMessage := "Invalid YouTube URL."
  const FailedMessage := "Failed to fetch transcript."
  const MethodNotAllowedMessage := "Method not allowed."
  const NoDetailsMessage := "Failed to fetch video details."

  /** What `new URL(youtubeUrl).searchParams.get('v')` does: throw, or give
      the parameter's value (`None` for `null`, when there is none). */
  datatype UrlParse = Unparsable | Parsed(v: Option<string>)

  /** The YouTube Data API request for a video; an unset key is interpolated as `undefined`. */
  function DetailsEndpoint(videoId: string, apiKey: Option<string>): string
  {
    "https://www.googleapis.com/youtube/v3/videos?id=" + videoId
    + "&key=" + (if apiKey.Some? then apiKey.value else "undefined") + "&part=snippet"
  }

  /** `fetchVideoDetails` after the response is parsed: the first item's
      title, description and default thumbnail URL, or the message of what
      it throws — its own error when `items` is absent or empty, a TypeError
      when a property along the way is missing. */
  function VideoDetails(data: Json): (r: Result<Json, string>)
    ensures data.JNull? ==> r == Failure(NullPropertyMessage("items"))
    ensures !data.JNull? && !(TruthyAccess(Member(data, "items")) && NonEmptyLength(Member(data, "items").value)) ==>
              r == Failure(NoDetailsMessage)
    ensures r.Success? ==>
              var video := Get(Get(Member(data, "items"), "0"), "snippet");
              r.value == JObj(map["videoTitle" := StoredValue(Get(video, "title")),
                                  "videoDescription" := StoredValue(Get(video, "description")),
                                  "videoThumbnail" := StoredValue(Get(Get(Get(video, "thumbnails"), "default"), "url"))])
  {
    var items := Member(data, "items");
    if items.TypeError? then Failure(items.message)
    else if !(TruthyAccess(items) && NonEmptyLength(items.value)) then Failure(NoDetailsMessage)
    else
      var video := Get(Get(items, "0"), "snippet");
      var title := Get(video, "title");
      var description := Get(video, "description");
      var thumbnail := Get(Get(Get(video, "thumbnails"), "default"), "url");
      if title.TypeError? then Failure(title.message)
      else if description.TypeError? then Failure(description.message)
      else if thumbnail.TypeError? then Failure(thumbnail.message)
      else Success(JObj(map["videoTitle" := StoredValue(title), "videoDescription" := StoredValue(description),
                            "videoThumbnail" := StoredValue(thumbnail)]))
  }

  /** An API answer of the documented shape gives its first item's snippet fields. */
  lemma VideoDetailsOfFirstItem(title: string, description: string, url: string, rest: seq<Json>)
    ensures
      var snippet := JObj(map["title" := JStr(title), "description" := JStr(description),
                              "thumbnails" := JObj(map["default" := JObj(map["url" := JStr(url)])])]);
      VideoDetails(JObj(map["items" := JArr([JObj(map["snippet" := snippet])] + rest)]))
      == Success(JObj(map["videoTitle" := JStr(title), "videoDescription" := JStr(description), "videoThumbnail" := JStr(url)]))
  {
  }

  function TranscriptDoc(uuid: Json, details: Json, transcript: Json): Doc
  {
    map["uuid" := uuid, "youtubeVideoDetails" := details, "transcript" := transcript]
  }

  predicate ValidBody(req: Request)
  {
    TruthyAccess(BodyField(req, "youtubeUrl")) && TruthyAccess(BodyField(req, "uuid"))
  }

  /** Everything inside the `try` before the insert succeeds: the id, the
      transcript and the details, or `None` when the handler answers 400 or
      500 before reaching the database. */
  function Fetched(url: Json, parseUrl: Json -> UrlParse, fetchTranscript: string -> Result<Json, Thrown>,
                   fetchDetails: string -> Option<Json>, apiKey: Option<string>): Option<(string, Json, Json)>
  {
    match parseUrl(url)
    case Unparsable => None
    case Parsed(v) =>
      if !TruthyString(v) then None
      else match fetchTranscript(v.value)
        case Failure(_) => None
        case Success(transcript) =>
          match fetchDetails(DetailsEndpoint(v.value, apiKey))
          case None => None
          case Some(data) =>
            match VideoDetails(data)
            case Failure(_) => None
            case Success(details) => Some((v.value, transcript, details))
  }

  /** The route handler. `fetchDetails` gives the parsed body of the Data API
      response for an endpoint, or `None` when the fetch or the parsing rejected. */
  method Handle(db: Database, req: Request, parseUrl: Json -> UrlParse, fetchTranscript: string -> Result<Json, Thrown>,
                fetchDetails: string -> Option<Json>, apiKey: Option<string>, fault: DbFault) returns (res: Response)
    modifies db
    ensures req.httpMethod != "POST" ==> res == JsonResponse(405, ErrorJson(MethodNotAllowedMessage)) && db.store == old(db.store)
    ensures req.httpMethod == "POST" && req.body.JNull? ==> res == Crashed && db.store == old(db.store)
    ensures req.httpMethod == "POST" && !req.body.JNull? && !ValidBody(req) ==>
              res == JsonResponse(400, ErrorJson(RequiredMessage)) && db.store == old(db.store)
    ensures req.httpMethod == "POST" && ValidBody(req) ==>
      var url := BodyField(req, "youtubeUrl").value;
      var uuid := BodyField(req, "uuid").value;
      var f := Fetched(url, parseUrl, fetchTranscript, fetchDetails, apiKey);
      && (parseUrl(url).Parsed? && !TruthyString(parseUrl(url).v) ==>
            res == JsonResponse(400, ErrorJson(InvalidUrlMessage)) && db.store == old(db.store))
      && (f.None? && !(parseUrl(url).Parsed? && !TruthyString(parseUrl(url).v)) ==>
            res == JsonResponse(500, ErrorJson(FailedMessage)) && db.store == old(db.store))
      && (f.Some? && (FaultAt(fault, 0).Some? || FaultAt(fault, 1).Some?) ==>
            res == JsonResponse(500, ErrorJson(FailedMessage)) && db.store == old(db.store))
      && (f.Some? && FaultAt(fault, 0).None? && FaultAt(fault, 1).None? ==>
            res == JsonResponse(200, JObj(map["success" := JBool(true)]))
            && db.store == old(db.store).(youtubeTranscripts := old(db.store).youtubeTranscripts
                                                             + [TranscriptDoc(uuid, f.value.2, f.value.1)]))
  {
    if req.httpMethod != "POST" {
      return JsonResponse(405, ErrorJson(MethodNotAllowedMessage));
    }
    var youtubeUrl := BodyField(req, "youtubeUrl");
    var uuid := BodyField(req, "uuid");
    if youtubeUrl.TypeError? {
      return Crashed;
    }
    if !TruthyAccess(youtubeUrl) || !TruthyAccess(uuid) {
      return JsonResponse(400, ErrorJson(RequiredMessage));
    }
    var parsed := parseUrl(youtubeUrl.value);
    ghost var f := Fetched(youtubeUrl.value, parseUrl, fetchTranscript, fetchDetails, apiKey);
    if parsed.Unparsable? {
      assert f.None?;
      return JsonResponse(500, ErrorJson(FailedMessage));
    }
    var videoId := parsed.v;
    if !TruthyString(videoId) {
      return JsonResponse(400, ErrorJson(InvalidUrlMessage));
    }
    var transcript := fetchTranscript(videoId.value);
    if transcript.Failure? {
      assert f.None?;
      return JsonResponse(500, ErrorJson(FailedMessage));
    }
    var data := fetchDetails(DetailsEndpoint(videoId.value, apiKey));
    if data.None? {
      assert f.None?;
      return JsonResponse(500, ErrorJson(FailedMessage));
    }
    var details := VideoDetails(data.value);
    if details.Failure? {
      assert f.None?;
      return JsonResponse(500, ErrorJson(FailedMessage));
    }
    assert f == Some((videoId.value, transcript.value, details.value));
    if FaultAt(fault, 0).Some? || FaultAt(fault, 1).Some? {
      return JsonResponse(500, ErrorJson(FailedMessage));
    }
    db.InsertOne(YoutubeTranscripts, TranscriptDoc(uuid.value, details.value, transcript.value));
    res := JsonResponse(200, JObj(map["success" := JBool(true)]));
  }
}
