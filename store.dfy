/** The server's MongoDB database, abstracted: each collection is the
    sequence of its documents in insertion order. `findOne` with an equality
    filter returns the first match, `deleteOne` removes it, `insertOne`
    appends, and `updateOne` with `upsert` sets a field of the first match or
    appends a new document. A failing database call (connection included)
    is a `DbFault` naming the call's position in the handler. Requests and
    responses of the Next.js API routes are modelled here too. */
module Store {
  import opened Js
  import opened JsonData

  type Doc = map<string, Json>

  datatype Collection = Questions | Topics | Urls | YoutubeTranscripts | YoutubeQuestions | QuizSessions | Uuids

  /** All collections the handlers touch. */
  datatype Store = Store(questions: seq<Doc>, topics: seq<Doc>, urls: seq<Doc>, youtubeTranscripts: seq<Doc>,
                         youtubeQuestions: seq<Doc>, quizSessions: seq<Doc>, uuids: seq<Doc>)

  function Coll(s: Store, c: Collection): seq<Doc>
  {
    match c
    case Questions => s.questions
    case Topics => s.topics
    case Urls => s.urls
    case YoutubeTranscripts => s.youtubeTranscripts
    case YoutubeQuestions => s.youtubeQuestions
    case QuizSessions => s.quizSessions
    case Uuids => s.uuids
  }

  /** The store with collection `c` replaced and every other one kept. */
  function WithColl(s: Store, c: Collection, docs: seq<Doc>): (r: Store)
    ensures Coll(r, c) == docs
    ensures forall d :: d != c ==> Coll(r, d) == Coll(s, d)
  {
    match c
    case Questions => s.(questions := docs)
    case Topics => s.(topics := docs)
    case Urls => s.(urls := docs)
    case YoutubeTranscripts => s.(youtubeTranscripts := docs)
    case YoutubeQuestions => s.(youtubeQuestions := docs)
    case QuizSessions => s.(quizSessions := docs)
    case Uuids => s.(uuids := docs)
  }

  // ---------------------------------------------------------------------------
  // Equality filters

  /** `{ field: value }` matches `doc`; a `null` (or `undefined`, which the
      driver sends as `null`) value also matches documents without the field. */
  predicate Matches(doc: Doc, field: string, value: Json)
  {
    if value.JNull? then field !in doc || doc[field] == JNull
    else field in doc && doc[field] == value
  }

  /** The position of the first matching document. */
  function FirstMatch(docs: seq<Doc>, field: string, value: Json): (r: Option<nat>)
    ensures r.Some? ==> r.value < |docs| && Matches(docs[r.value], field, value)
                        && forall j :: 0 <= j < r.value ==> !Matches(docs[j], field, value)
    ensures r.None? ==> forall j :: 0 <= j < |docs| ==> !Matches(docs[j], field, value)
  {
    if docs == [] then None
    else if Matches(docs[0], field, value) then Some(0)
    else match FirstMatch(docs[1..], field, value)
      case None => None
      case Some(i) => Some(i + 1)
  }

  /** `findOne({ field: value })` */
  function FindFirst(docs: seq<Doc>, field: string, value: Json): (r: Option<Doc>)
    ensures r.Some? <==> exists j :: 0 <= j < |docs| && Matches(docs[j], field, value)
    ensures r.Some? ==> Matches(r.value, field, value) && r.value in docs
  {
    match FirstMatch(docs, field, value)
    case None => None
    case Some(i) => Some(docs[i])
  }

  /** `deleteOne({ field: value })`: the first match leaves, the rest stays in order. */
  function DeleteFirst(docs: seq<Doc>, field: string, value: Json): (r: seq<Doc>)
    ensures FirstMatch(docs, field, value).None? ==> r == docs
    ensures FirstMatch(docs, field, value).Some? ==>
              var i := FirstMatch(docs, field, value).value; r == docs[..i] + docs[i + 1..]
  {
    match FirstMatch(docs, field, value)
    case None => docs
    case Some(i) => docs[..i] + docs[i + 1..]
  }

  /** The number of documents matching `{ field: value }`. */
  function CountMatches(docs: seq<Doc>, field: string, value: Json): nat
  {
    if docs == [] then 0
    else (if Matches(docs[0], field, value) then 1 else 0) + CountMatches(docs[1..], field, value)
  }

  lemma {:induction false} CountMatchesAppend(a: seq<Doc>, b: seq<Doc>, field: string, value: Json)
    ensures CountMatches(a + b, field, value) == CountMatches(a, field, value) + CountMatches(b, field, value)
  {
    if a == [] {
      assert a + b == b;
    } else {
      assert (a + b)[1..] == a[1..] + b;
      CountMatchesAppend(a[1..], b, field, value);
    }
  }

  lemma {:induction false} CountMatchesNone(docs: seq<Doc>, field: string, value: Json)
    requires forall j :: 0 <= j < |docs| ==> !Matches(docs[j], field, value)
    ensures CountMatches(docs, field, value) == 0
  {
    if docs != [] {
      CountMatchesNone(docs[1..], field, value);
    }
  }

  /** Inserting a document adds one match exactly when it matches. */
  lemma InsertCount(docs: seq<Doc>, d: Doc, field: string, value: Json)
    ensures CountMatches(docs + [d], field, value) == CountMatches(docs, field, value) + (if Matches(d, field, value) then 1 else 0)
  {
    CountMatchesAppend(docs, [d], field, value);
    assert [d][1..] == [];
  }

  /** `deleteOne` removes one match when there is one, and no other document. */
  lemma DeleteFirstCount(docs: seq<Doc>, field: string, value: Json)
    ensures CountMatches(DeleteFirst(docs, field, value), field, value)
         == if CountMatches(docs, field, value) > 0 then CountMatches(docs, field, value) - 1 else 0
    ensures |DeleteFirst(docs, field, value)| == |docs| - (if FirstMatch(docs, field, value).Some? then 1 else 0)
  {
    match FirstMatch(docs, field, value)
    case None =>
      CountMatchesNone(docs, field, value);
    case Some(i) =>
      assert docs == docs[..i] + ([docs[i]] + docs[i + 1..]);
      CountMatchesAppend(docs[..i], [docs[i]] + docs[i + 1..], field, value);
      CountMatchesAppend([docs[i]], docs[i + 1..], field, value);
      CountMatchesAppend(docs[..i], docs[i + 1..], field, value);
      CountMatchesNone(docs[..i], field, value);
      assert [docs[i]][1..] == [];
  }

  /** Replacing (delete one, then insert) in a collection with at most one
      match for the key leaves exactly the new document, which `findOne` then returns. */
  lemma ReplaceFindsNew(docs: seq<Doc>, d: Doc, field: string, value: Json)
    requires CountMatches(docs, field, value) <= 1 && Matches(d, field, value)
    ensures CountMatches(DeleteFirst(docs, field, value) + [d], field, value) == 1
    ensures FindFirst(DeleteFirst(docs, field, value) + [d], field, value) == Some(d)
  {
    var rest := DeleteFirst(docs, field, value);
    DeleteFirstCount(docs, field, value);
    InsertCount(rest, d, field, value);
    NoMatchesWhenCountZero(rest, field, value);
    assert FirstMatch(rest + [d], field, value) == Some(|rest|) by {
      FirstMatchAppend(rest, [d], field, value);
    }
  }

  lemma {:induction false} NoMatchesWhenCountZero(docs: seq<Doc>, field: string, value: Json)
    requires CountMatches(docs, field, value) == 0
    ensures forall j :: 0 <= j < |docs| ==> !Matches(docs[j], field, value)
  {
    if docs != [] {
      NoMatchesWhenCountZero(docs[1..], field, value);
      assert forall j :: 1 <= j < |docs| ==> docs[j] == docs[1..][j - 1];
    }
  }

  /** The first match is the only position its postcondition allows. */
  lemma {:induction false} FirstMatchIs(docs: seq<Doc>, field: string, value: Json, i: nat)
    requires i < |docs| && Matches(docs[i], field, value)
    requires forall j :: 0 <= j < i ==> !Matches(docs[j], field, value)
    ensures FirstMatch(docs, field, value) == Some(i)
  {
  }

  lemma {:induction false} FirstMatchAppendEarly(a: seq<Doc>, b: seq<Doc>, field: string, value: Json, i: nat)
    requires FirstMatch(a, field, value) == Some(i)
    ensures FirstMatch(a + b, field, value) == Some(i)
  {
    assert forall j :: 0 <= j <= i ==> (a + b)[j] == a[j];
    FirstMatchIs(a + b, field, value, i);
  }

  lemma {:induction false} FirstMatchAppendLate(a: seq<Doc>, b: seq<Doc>, field: string, value: Json, k: nat)
    requires FirstMatch(a, field, value).None? && FirstMatch(b, field, value) == Some(k)
    ensures FirstMatch(a + b, field, value) == Some(|a| + k)
  {
    var ab := a + b;
    forall j | 0 <= j < |a| + k
      ensures !Matches(ab[j], field, value)
    {
      if j < |a| {
        assert ab[j] == a[j];
      } else {
        assert ab[j] == b[j - |a|];
      }
    }
    assert ab[|a| + k] == b[k];
    FirstMatchIs(ab, field, value, |a| + k);
  }

  lemma {:induction false} FirstMatchAppendNone(a: seq<Doc>, b: seq<Doc>, field: string, value: Json)
    requires FirstMatch(a, field, value).None? && FirstMatch(b, field, value).None?
    ensures FirstMatch(a + b, field, value).None?
  {
    var ab := a + b;
    forall j | 0 <= j < |ab|
      ensures !Matches(ab[j], field, value)
    {
      if j < |a| {
        assert ab[j] == a[j];
      } else {
        assert ab[j] == b[j - |a|];
      }
    }
  }

  /** `findOne` on two runs of documents: the first run's match, if any,
      else the second run's match, shifted past the first run. */
  lemma {:induction false} FirstMatchAppend(a: seq<Doc>, b: seq<Doc>, field: string, value: Json)
    ensures FirstMatch(a, field, value).Some? ==> FirstMatch(a + b, field, value) == FirstMatch(a, field, value)
    ensures FirstMatch(a, field, value).None? && FirstMatch(b, field, value).Some? ==>
              FirstMatch(a + b, field, value) == Some(|a| + FirstMatch(b, field, value).value)
    ensures FirstMatch(a, field, value).None? && FirstMatch(b, field, value).None? ==> FirstMatch(a + b, field, value).None?
  {
    match FirstMatch(a, field, value)
    case Some(i) =>
      FirstMatchAppendEarly(a, b, field, value, i);
    case None =>
      match FirstMatch(b, field, value)
      case Some(k) =>
        FirstMatchAppendLate(a, b, field, value, k);
      case None =>
        FirstMatchAppendNone(a, b, field, value);
  }

  /** Appending never changes what `findOne` returns once something matches:
      the older document keeps being found. */
  lemma AppendKeepsFound(docs: seq<Doc>, d: Doc, field: string, value: Json)
    requires FindFirst(docs, field, value).Some?
    ensures FindFirst(docs + [d], field, value) == FindFirst(docs, field, value)
  {
    FirstMatchAppend(docs, [d], field, value);
  }

  // ---------------------------------------------------------------------------
  // Upsert

  /** The counts `updateOne` reports. */
  datatype UpdateResult = UpdateResult(modifiedCount: nat, upsertedCount: nat)

  /** `updateOne({ field: value }, { $set: { setField: setValue } }, { upsert: true })`:
      the first match gets the field set, counting as modified only if the
      stored value differed; with no match a new document `{ field: value,
      setField: setValue }` is appended. */
  function UpsertSet(docs: seq<Doc>, field: string, value: Json, setField: string, setValue: Json): (r: (seq<Doc>, UpdateResult))
    requires setField != field
    ensures FirstMatch(docs, field, value).None? ==>
              r == (docs + [map[field := value, setField := setValue]], UpdateResult(0, 1))
    ensures FirstMatch(docs, field, value).Some? ==>
              var i := FirstMatch(docs, field, value).value;
              && r.0 == docs[i := docs[i][setField := setValue]]
              && r.1.upsertedCount == 0
              && (r.1.modifiedCount == 1 <==> !(setField in docs[i] && docs[i][setField] == setValue))
    ensures |r.0| >= |docs|
    ensures FindFirst(r.0, field, value).Some? && setField in FindFirst(r.0, field, value).value
            && FindFirst(r.0, field, value).value[setField] == setValue
  {
    match FirstMatch(docs, field, value)
    case None =>
      var d := map[field := value, setField := setValue];
      FirstMatchAppend(docs, [d], field, value);
      (docs + [d], UpdateResult(0, 1))
    case Some(i) =>
      var updated := docs[i := docs[i][setField := setValue]];
      assert FirstMatch(updated, field, value) == Some(i) by { FirstMatchUpdate(docs, i, docs[i][setField := setValue], field, value); }
      (updated, UpdateResult(if setField in docs[i] && docs[i][setField] == setValue then 0 else 1, 0))
  }

  lemma {:induction false} FirstMatchUpdate(docs: seq<Doc>, i: nat, d: Doc, field: string, value: Json)
    requires FirstMatch(docs, field, value) == Some(i) && Matches(d, field, value)
    ensures FirstMatch(docs[i := d], field, value) == Some(i)
  {
    if i > 0 {
      assert docs[i := d][1..] == docs[1..][i - 1 := d];
      FirstMatchUpdate(docs[1..], i - 1, d, field, value);
    }
  }

  /** Setting the same value again reports neither a modification nor an
      upsert, which the answers handler turns into a 404. */
  lemma UpsertSameValue(docs: seq<Doc>, field: string, value: Json, setField: string, setValue: Json)
    requires setField != field
    requires FindFirst(docs, field, value).Some? && setField in FindFirst(docs, field, value).value
    requires FindFirst(docs, field, value).value[setField] == setValue
    ensures UpsertSet(docs, field, value, setField, setValue).1 == UpdateResult(0, 0)
    ensures UpsertSet(docs, field, value, setField, setValue).0 == docs
  {
    var i := FirstMatch(docs, field, value).value;
    assert docs[i][setField := setValue] == docs[i];
  }

  // ---------------------------------------------------------------------------
  // Faults

  /** Which database call fails, if any: call 0 is `connectToDB`, then each
      collection call of the handler in the order the source makes them. */
  datatype DbFault = NoFault | FailAt(step: nat, message: string)

  /** The message of the rejection at call `step`, if that call fails. */
  function FaultAt(f: DbFault, step: nat): (r: Option<string>)
    ensures r.Some? <==> f.FailAt? && f.step == step
  {
    if f.FailAt? && f.step == step then Some(f.message) else None
  }

  // ---------------------------------------------------------------------------
  // Requests and responses

  /** An API request: its method, its parsed JSON body and its query parameters. */
  datatype Request = Request(httpMethod: string, body: Json, query: map<string, string>)

  /** `res.status(s).end()` (no body), `res.status(s).json(body)`, or an
      exception that escaped the handler, which the framework answers itself. */
  datatype Response = Sent(status: nat, body: Option<Json>) | Crashed

  function JsonResponse(status: nat, body: Json): Response
  {
    Sent(status, Some(body))
  }

  /** `const { name } = req.body`: `null` cannot be destructured. */
  function BodyField(req: Request, name: string): Access
  {
    Member(req.body, name)
  }

  /** `req.query[name]`, `undefined` when absent. */
  function QueryField(req: Request, name: string): Option<string>
  {
    if name in req.query then Some(req.query[name]) else None
  }

  /** The filter value for a query parameter: `undefined` reaches the driver as `null`. */
  function QueryKey(v: Option<string>): Json
  {
    if v.Some? then JStr(v.value) else JNull
  }

  /** `{ error: error.message }` for a caught value. Here `NonError` stands
      for a thrown value other than `null`, `undefined` or an `Error`: its
      `message` is `undefined`, which `JSON.stringify` leaves out, so the
      serialised object is empty. */
  function CaughtErrorJson(t: Thrown): Json
  {
    match t
    case ErrorObject(m) => ErrorJson(m)
    case NonError => JObj(map[])
  }

  /** The database connection the handlers share. */
  class Database {
    var store: Store

    constructor (initial: Store)
      ensures store == initial
    {
      store := initial;
    }

    method InsertOne(c: Collection, doc: Doc)
      modifies this
      ensures store == WithColl(old(store), c, Coll(old(store), c) + [doc])
    {
      store := WithColl(store, c, Coll(store, c) + [doc]);
    }

    method DeleteOne(c: Collection, field: string, value: Json)
      modifies this
      ensures store == WithColl(old(store), c, DeleteFirst(Coll(old(store), c), field, value))
    {
      store := WithColl(store, c, DeleteFirst(Coll(store, c), field, value));
    }

    method FindOne(c: Collection, field: string, value: Json) returns (d: Option<Doc>)
      ensures d == FindFirst(Coll(store, c), field, value)
    {
      d := FindFirst(Coll(store, c), field, value);
    }

    method UpdateOne(c: Collection, field: string, value: Json, setField: string, setValue: Json) returns (result: UpdateResult)
      requires setField != field
      modifies this
      ensures var u := UpsertSet(Coll(old(store), c), field, value, setField, setValue);
              store == WithColl(old(store), c, u.0) && result == u.1
    {
      var u := UpsertSet(Coll(store, c), field, value, setField, setValue);
      store := WithColl(store, c, u.0);
      result := u.1;
    }
  }
}
