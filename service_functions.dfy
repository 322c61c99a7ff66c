/**
 * `backend/api/app_service/service_functions.py`: extracting the API key
 * from the request headers, the shape of a generated user name, and the
 * startup/shutdown hooks around the session manager.
 */
module ServiceFunctions {
  import opened Wrappers
  import opened Errors
  import opened SessionManager

  /** Request headers, by lower-case name. */
  type Headers = map<string, string>

  const ApiKeyHeader := "api-key"
  const ApiKeyMissing := "API key missing"

  /** `get_api_key`: the `api-key` header, or 403 when it is absent or empty. */
  function GetApiKey(headers: Headers): (r: Result<string, Error>)
    ensures r.Err? <==> ApiKeyHeader !in headers || headers[ApiKeyHeader] == ""
    ensures r.Err? ==> r.error == HttpError(Forbidden, ApiKeyMissing)
    ensures r.Ok? ==> r.value == headers[ApiKeyHeader] && r.value != ""
  {
    var apiKey := if ApiKeyHeader in headers then Some(headers[ApiKeyHeader]) else None;
    if apiKey.None? || apiKey.value == "" then Err(HttpError(Forbidden, ApiKeyMissing))
    else Ok(apiKey.value)
  }

  const UsernameLength := 14
  /** `string.ascii_lowercase`: the letters `a` to `z`, in order. */
  const AsciiLowercase: string := seq(26, i requires 0 <= i < 26 => ('a' as int + i) as char)

  lemma AsciiLowercaseIsTheAlphabet()
    ensures AsciiLowercase == "abcdefghijklmnopqrstuvwxyz"
  {
  }

  /** The shape every generated name has. */
  predicate IsGeneratedName(s: string)
  {
    |s| == UsernameLength && forall i :: 0 <= i < |s| ==> 'a' <= s[i] <= 'z'
  }

  /**
   * `generate_random_string`: fourteen draws from `ascii_lowercase`. The
   * random source is the parameter: draw `i` is `pick(i)`, reduced to an
   * index of the alphabet.
   */
  function GenerateRandomString(pick: nat -> nat): (r: string)
    ensures IsGeneratedName(r)
  {
    seq(UsernameLength, i requires 0 <= i < UsernameLength => AsciiLowercase[pick(i) % |AsciiLowercase|])
  }

  /** Every name of that shape is one the generator can produce. */
  lemma EveryGeneratedNameIsReachable(s: string)
    requires IsGeneratedName(s)
    ensures exists pick: nat -> nat :: GenerateRandomString(pick) == s
  {
    var pick: nat -> nat := (i: nat) => if i < |s| then (s[i] as int - 'a' as int) as nat else 0;
    forall i | 0 <= i < UsernameLength
      ensures AsciiLowercase[pick(i) % |AsciiLowercase|] == s[i]
    {
      var k := s[i] as int - 'a' as int;
      assert pick(i) % |AsciiLowercase| == k;
    }
    assert GenerateRandomString(pick) == s;
  }

  /** `startup`: starts the session manager, which needs it initialised. */
  method Startup(manager: DatabaseSessionManager, tablesExist: bool) returns (r: Result<bool, Error>)
    requires manager.Valid()
    ensures manager.engine.None? ==> r == Err(RuntimeError(NotInitialised))
    ensures manager.engine.Some? ==> r == Ok(!tablesExist)
  {
    r := manager.Startup(tablesExist);
  }

  /** `shutdown`: closes the manager only when it has an engine, so it never raises. */
  method Shutdown(manager: DatabaseSessionManager) returns (r: Result<(), Error>)
    requires manager.Valid()
    modifies manager
    ensures manager.Valid()
    ensures r.Ok?
    ensures manager.engine.None? && manager.sessionmaker.None?
  {
    r := Ok(());
    if manager.Engine().Some? {
      r := manager.Close();
    }
  }
}
