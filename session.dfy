/** The `useSession` hook (src/hooks/useSession.ts): the per-browser
    identifier kept in local storage, fetched from `/api/storeUUID` when
    absent, and the per-quiz session key `userUUID + "-" + timestamp`.
    Local storage is a map; the clock and the server's reply are parameters. */
module Session {
  import opened Js
  import opened JsonData
  import opened ApiClient

  const UserUuidKey := "userUUID"
  const SessionTimestampKey := "sessionTimestamp"
  const FailedToGenerateUuid := "Failed to generate UUID"

  /** The hook's state cells together with local storage. */
  datatype HookState = HookState(storage: map<string, string>, userUUID: string, isLoading: bool, error: Option<string>)

  /** `localStorage.getItem('userUUID')` is truthy: present and not empty. */
  predicate HasStoredUuid(storage: map<string, string>)
  {
    UserUuidKey in storage && storage[UserUuidKey] != ""
  }

  /** What `initializeSession` makes of `api.storeUUID()`'s outcome: the new
      identifier, or the message of what was thrown. Reading `uuid` of a
      `null` body throws a TypeError. */
  function UuidFromReply(reply: ApiResult): (r: Result<string, string>)
    ensures reply.Failure? ==> r == Failure(reply.error.message)
    ensures reply.Success? && TruthyAccess(Member(reply.value, "uuid")) ==>
              r == Success(StringOf(Member(reply.value, "uuid").value))
    ensures reply.Success? && Member(reply.value, "uuid") in {Undefined, Found(JNull), Found(JStr("")), Found(JBool(false)), Found(JNum(0))} ==>
              r == Failure(FailedToGenerateUuid)
  {
    match reply
    case Failure(e) => Failure(e.message)
    case Success(data) =>
      var u := Member(data, "uuid");
      if u.TypeError? then Failure(u.message)
      else if TruthyAccess(u) then Success(StringOf(u.value))
      else Failure(FailedToGenerateUuid)
  }

  /** `initializeSession`: a stored identifier is adopted and the server is
      not asked; otherwise the reply decides between storing the new
      identifier and recording an error, which leaves storage and the
      identifier as they were. Whatever happens, loading ends and the error
      is cleared first. */
  function Initialize(s: HookState, reply: ApiResult): (r: HookState)
    ensures !r.isLoading
    ensures HasStoredUuid(s.storage) ==>
              r == HookState(s.storage, s.storage[UserUuidKey], false, None)
    ensures !HasStoredUuid(s.storage) && UuidFromReply(reply).Success? ==>
              var u := UuidFromReply(reply).value;
              r == HookState(s.storage[UserUuidKey := u], u, false, None)
    ensures !HasStoredUuid(s.storage) && UuidFromReply(reply).Failure? ==>
              r == HookState(s.storage, s.userUUID, false, Some(UuidFromReply(reply).error))
    ensures r.error.None? <==> HasStoredUuid(s.storage) || UuidFromReply(reply).Success?
  {
    if HasStoredUuid(s.storage) then
      s.(userUUID := s.storage[UserUuidKey], isLoading := false, error := None)
    else
      match UuidFromReply(reply)
      case Success(u) => s.(storage := s.storage[UserUuidKey := u], userUUID := u, isLoading := false, error := None)
      case Failure(m) => s.(isLoading := false, error := Some(m))
  }

  /** The session key: the identifier, a dash, and the timestamp in decimal. */
  function SessionId(userUUID: string, timestamp: nat): string
  {
    userUUID + "-" + NatToDecimal(timestamp)
  }

  /** The index of the last `-` in `s`, if any. */
  function LastDash(s: string): (r: Option<nat>)
    ensures r.Some? ==> r.value < |s| && s[r.value] == '-' && forall j :: r.value < j < |s| ==> s[j] != '-'
    ensures r.None? ==> forall j :: 0 <= j < |s| ==> s[j] != '-'
  {
    if s == [] then None
    else if s[|s| - 1] == '-' then Some(|s| - 1)
    else LastDash(s[..|s| - 1])
  }

  /** Splits a session key at its last dash into identifier and timestamp text. */
  function SplitSessionId(key: string): Option<(string, string)>
  {
    match LastDash(key)
    case None => None
    case Some(i) => Some((key[..i], key[i + 1..]))
  }

  /** The session key gives back both of its parts, even though the identifier
      itself holds dashes: the timestamp's decimal form holds none. */
  lemma SessionIdRoundTrip(userUUID: string, timestamp: nat)
    ensures SplitSessionId(SessionId(userUUID, timestamp)) == Some((userUUID, NatToDecimal(timestamp)))
    ensures DecimalValue(NatToDecimal(timestamp)) == timestamp
  {
    var d := NatToDecimal(timestamp);
    var key := SessionId(userUUID, timestamp);
    assert key[|userUUID|] == '-';
    assert forall j :: |userUUID| < j < |key| ==> key[j] == d[j - |userUUID| - 1];
    assert LastDash(key) == Some(|userUUID|);
    assert key[..|userUUID|] == userUUID;
    assert key[|userUUID| + 1..] == d;
    DecimalRoundTrip(timestamp);
  }

  /** `createSessionId` at time `now`: the key, and the timestamp stored under `sessionTimestamp`. */
  function SessionStart(s: HookState, now: nat): (r: (string, HookState))
    ensures r.1 == s.(storage := s.storage[SessionTimestampKey := NatToDecimal(now)])
    ensures SplitSessionId(r.0) == Some((s.userUUID, r.1.storage[SessionTimestampKey]))
  {
    SessionIdRoundTrip(s.userUUID, now);
    (SessionId(s.userUUID, now), s.(storage := s.storage[SessionTimestampKey := NatToDecimal(now)]))
  }

  /** `clearSession`: exactly the two keys leave storage and the identifier
      is emptied, so the next initialisation asks the server again. */
  function Clear(s: HookState): (r: HookState)
    ensures r.storage.Keys == s.storage.Keys - {UserUuidKey, SessionTimestampKey}
    ensures forall k :: k in r.storage ==> r.storage[k] == s.storage[k]
    ensures r.userUUID == "" && r.isLoading == s.isLoading && r.error == s.error
    ensures !HasStoredUuid(r.storage)
  {
    s.(storage := s.storage - {UserUuidKey, SessionTimestampKey}, userUUID := "")
  }

  /** After `clearSession`, `initializeSession` takes whatever the server
      returns, whatever was stored before. */
  lemma ClearThenInitialize(s: HookState, reply: ApiResult)
    requires UuidFromReply(reply).Success?
    ensures Initialize(Clear(s), reply).userUUID == UuidFromReply(reply).value
    ensures Initialize(Clear(s), reply).storage[UserUuidKey] == UuidFromReply(reply).value
  {
  }

  /** The hook instance: its state cells and the page's local storage. */
  class SessionHook {
    var storage: map<string, string>
    var userUUID: string
    var isLoading: bool
    var error: Option<string>

    function State(): HookState
      reads this
    {
      HookState(storage, userUUID, isLoading, error)
    }

    /** The first render: no identifier yet, loading, no error. */
    constructor (initialStorage: map<string, string>)
      ensures State() == HookState(initialStorage, "", true, None)
    {
      storage := initialStorage;
      userUUID := "";
      isLoading := true;
      error := None;
    }

    /** `initializeSession`. `requested` holds the `api.storeUUID()` call when
        one was made; `reply` is its outcome. */
    method InitializeSession(reply: ApiResult) returns (requested: Option<Call>)
      modifies this
      ensures State() == Initialize(old(State()), reply)
      ensures requested == if HasStoredUuid(old(storage)) then None else Some(StoreUuid())
    {
      isLoading := true;
      error := None;
      requested := None;
      if UserUuidKey in storage && storage[UserUuidKey] != "" {
        userUUID := storage[UserUuidKey];
      } else {
        requested := Some(StoreUuid());
        var outcome := UuidFromReply(reply);
        if outcome.Success? {
          storage := storage[UserUuidKey := outcome.value];
          userUUID := outcome.value;
        } else {
          error := Some(outcome.error);
        }
      }
      isLoading := false;
    }

    /** `createSessionId` with `Date.now()` equal to `now`. */
    method CreateSessionId(now: nat) returns (sessionId: string)
      modifies this
      ensures (sessionId, State()) == SessionStart(old(State()), now)
    {
      var timestamp := NatToDecimal(now);
      sessionId := userUUID + "-" + timestamp;
      storage := storage[SessionTimestampKey := timestamp];
    }

    /** `clearSession` */
    method ClearSession()
      modifies this
      ensures State() == Clear(old(State()))
    {
      storage := storage - {UserUuidKey};
      storage := storage - {SessionTimestampKey};
      userUUID := "";
    }
  }
}
