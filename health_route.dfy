/** `GET /api/health` (src/pages/api/health.ts): pings the database and
    checks that the required environment variables are set. The process
    environment is a parameter, and so is the ISO timestamp `new
    Date().toISOString()` gives. Database calls: 0 connect, 1 ping. */
module HealthRoute {
  import opened Js
  import opened JsonData
  import opened Store

  const RequiredVariables: seq<string> := ["OPENAI_API_KEY", "MONGODB_URI"]
  const MissingPrefix := "Missing environment variables: "

  /** `process.env[name]` is falsy: unset, or set to the empty string. */
  predicate Unset(env: map<string, string>, name: string)
  {
    name !in env || env[name] == ""
  }

  /** `names.filter(name => !process.env[name])`; `MissingExact` and
      `MissingAppend` say what it keeps and in which order. */
  function Missing(env: map<string, string>, names: seq<string>): (r: seq<string>)
    ensures |r| <= |names|
  {
    if names == [] then []
    else (if Unset(env, names[0]) then [names[0]] else []) + Missing(env, names[1..])
  }

  /** The missing names are exactly the unset ones, and none is missing
      exactly when every name is set. */
  lemma {:induction false} MissingExact(env: map<string, string>, names: seq<string>)
    ensures forall x :: x in Missing(env, names) <==> x in names && Unset(env, x)
    ensures Missing(env, names) == [] <==> forall x :: x in names ==> !Unset(env, x)
  {
    if names != [] {
      MissingExact(env, names[1..]);
      assert forall x :: x in names <==> x == names[0] || x in names[1..];
    }
  }

  /** `process.env[name] || fallback`. */
  function EnvOr(env: map<string, string>, name: string, fallback: string): (r: string)
    requires fallback != ""
    ensures r != ""
    ensures Unset(env, name) ==> r == fallback
    ensures !Unset(env, name) ==> r == env[name]
  {
    if Unset(env, name) then fallback else env[name]
  }

  /** The handler's answer. */
  function Handle(req: Request, env: map<string, string>, fault: DbFault, timestamp: string): (res: Response)
    ensures res.Sent? && res.body.Some? && res.body.value.JObj?
    ensures req.httpMethod != "GET" ==> res == JsonResponse(405, ErrorJson("Method not allowed"))
    ensures req.httpMethod == "GET" ==> (res.status == 200 <==>
              FaultAt(fault, 0).None? && FaultAt(fault, 1).None? && forall x :: x in RequiredVariables ==> !Unset(env, x))
    ensures req.httpMethod == "GET" ==> res.status in {200, 503}
    ensures req.httpMethod == "GET" && (FaultAt(fault, 0).Some? || FaultAt(fault, 1).Some?) ==>
              res.body.value == JObj(map["status" := JStr("unhealthy"), "timestamp" := JStr(timestamp),
                                         "error" := JStr(fault.message),
                                         "checks" := JObj(map["database" := JStr("disconnected"),
                                                              "environment" := JStr("unknown"), "api" := JStr("error")])])
    ensures req.httpMethod == "GET" && FaultAt(fault, 0).None? && FaultAt(fault, 1).None? && Missing(env, RequiredVariables) != [] ==>
              res.body.value == JObj(map["status" := JStr("unhealthy"), "timestamp" := JStr(timestamp),
                                         "error" := JStr(MissingPrefix + Join(Missing(env, RequiredVariables), ", ")),
                                         "checks" := JObj(map["database" := JStr("connected"), "environment" := JStr("incomplete")])])
    ensures res.status == 200 ==>
              res.body.value == JObj(map["status" := JStr("healthy"), "timestamp" := JStr(timestamp),
                                         "version" := JStr(EnvOr(env, "npm_package_version", "1.0.0")),
                                         "environment" := JStr(EnvOr(env, "NODE_ENV", "development")),
                                         "checks" := JObj(map["database" := JStr("connected"), "environment" := JStr("complete"),
                                                              "api" := JStr("operational")])])
  {
    if req.httpMethod != "GET" then JsonResponse(405, ErrorJson("Method not allowed"))
    else if FaultAt(fault, 0).Some? || FaultAt(fault, 1).Some? then
      JsonResponse(503, JObj(map["status" := JStr("unhealthy"), "timestamp" := JStr(timestamp), "error" := JStr(fault.message),
                                 "checks" := JObj(map["database" := JStr("disconnected"), "environment" := JStr("unknown"),
                                                      "api" := JStr("error")])]))
    else
      MissingExact(env, RequiredVariables);
      var missing := Missing(env, RequiredVariables);
      if |missing| > 0 then
        JsonResponse(503, JObj(map["status" := JStr("unhealthy"), "timestamp" := JStr(timestamp),
                                   "error" := JStr(MissingPrefix + Join(missing, ", ")),
                                   "checks" := JObj(map["database" := JStr("connected"), "environment" := JStr("incomplete")])]))
      else
        JsonResponse(200, JObj(map["status" := JStr("healthy"), "timestamp" := JStr(timestamp),
                                   "version" := JStr(EnvOr(env, "npm_package_version", "1.0.0")),
                                   "environment" := JStr(EnvOr(env, "NODE_ENV", "development")),
                                   "checks" := JObj(map["database" := JStr("connected"), "environment" := JStr("complete"),
                                                        "api" := JStr("operational")])]))
  }

  /** Filtering a concatenation filters each part: the missing names keep
      the order of the list they come from. */
  lemma {:induction false} MissingAppend(env: map<string, string>, a: seq<string>, b: seq<string>)
    ensures Missing(env, a + b) == Missing(env, a) + Missing(env, b)
  {
    if a == [] {
      assert a + b == b;
    } else {
      var head := if Unset(env, a[0]) then [a[0]] else [];
      assert (a + b)[0] == a[0];
      assert (a + b)[1..] == a[1..] + b;
      MissingAppend(env, a[1..], b);
      calc {
        Missing(env, a + b);
        head + Missing(env, a[1..] + b);
        head + (Missing(env, a[1..]) + Missing(env, b));
        (head + Missing(env, a[1..])) + Missing(env, b);
        Missing(env, a) + Missing(env, b);
      }
    }
  }

  /** A single name is missing exactly when it is unset. */
  lemma MissingOne(env: map<string, string>, name: string)
    ensures Missing(env, [name]) == if Unset(env, name) then [name] else []
  {
    assert [name][1..] == [];
  }

  /** The message names what is missing in the listed order: both variables,
      only the key, or only the database address. */
  lemma MissingMessages(env: map<string, string>)
    ensures Unset(env, "OPENAI_API_KEY") && Unset(env, "MONGODB_URI") ==>
              Join(Missing(env, RequiredVariables), ", ") == "OPENAI_API_KEY, MONGODB_URI"
    ensures Unset(env, "OPENAI_API_KEY") && !Unset(env, "MONGODB_URI") ==>
              Join(Missing(env, RequiredVariables), ", ") == "OPENAI_API_KEY"
    ensures !Unset(env, "OPENAI_API_KEY") && Unset(env, "MONGODB_URI") ==>
              Join(Missing(env, RequiredVariables), ", ") == "MONGODB_URI"
  {
    assert RequiredVariables == ["OPENAI_API_KEY"] + ["MONGODB_URI"];
    MissingAppend(env, ["OPENAI_API_KEY"], ["MONGODB_URI"]);
    MissingOne(env, "OPENAI_API_KEY");
    MissingOne(env, "MONGODB_URI");
    var both := Missing(env, RequiredVariables);
    if Unset(env, "OPENAI_API_KEY") && Unset(env, "MONGODB_URI") {
      assert both == ["OPENAI_API_KEY", "MONGODB_URI"];
      assert both[1..] == ["MONGODB_URI"];
      assert Join(both, ", ") == "OPENAI_API_KEY" + ", " + "MONGODB_URI";
    }
  }
}
