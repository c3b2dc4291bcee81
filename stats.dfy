/**
 * The VPN statistics endpoints of the management server: the bearer-token check
 * shared by the handlers, the status whitelist, the non-negativity check on an
 * upload, the admin list and the own-statistics access rule, and the choice of
 * connection timestamps.
 *
 * Token signature checking is an oracle parameter (`verify`: the phone-number
 * claim of a valid token, None for an invalid one); storage is not modelled.
 */
module Stats {
  import opened Wrappers
  import opened GoStrings

  // ---------------------------------------------------------------------------
  // Bearer tokens

  datatype AuthError = MissingHeader | InvalidHeaderFormat | InvalidToken | MissingPhoneClaim

  /**
   * The header split on ' ' must give exactly two pieces, the first "Bearer";
   * the second is the token, possibly empty.
   */
  function ParseBearer(header: string): (r: Result<string, AuthError>)
    ensures header == "" <==> r == Err(MissingHeader)
    ensures r.Ok? ==> header == "Bearer " + r.value && ' ' !in r.value
    ensures r.Err? ==> r.error in {MissingHeader, InvalidHeaderFormat}
  {
    if header == "" then Err(MissingHeader)
    else
      var parts := Split(header, ' ');
      if |parts| != 2 || parts[0] != "Bearer" then Err(InvalidHeaderFormat)
      else
        SplitPair(header, ' ', parts[0], parts[1]);
        Ok(parts[1])
  }

  /** Every "Bearer <token>" header with a space-free token yields that token. */
  lemma BearerRoundTrip(token: string)
    requires ' ' !in token
    ensures ParseBearer("Bearer " + token) == Ok(token)
  {
    var h := "Bearer " + token;
    assert h == "Bearer" + [' '] + token;
    SplitPair(h, ' ', "Bearer", token);
  }

  /** A second space anywhere makes the header malformed. */
  lemma ExtraSpaceRejected(token: string)
    requires ' ' in token
    ensures ParseBearer("Bearer " + token) == Err(InvalidHeaderFormat)
  {
  }

  /**
   * validateJWTToken: the header format, then the signature check, then a
   * non-empty phone-number claim, which becomes the user name.
   */
  function ValidateJwtToken(header: string, verify: string -> Option<string>): (r: Result<string, AuthError>)
    ensures r.Ok? <==> ParseBearer(header).Ok? && verify(ParseBearer(header).value).Some?
                       && verify(ParseBearer(header).value).value != ""
    ensures r.Ok? ==> r.value == verify(ParseBearer(header).value).value && r.value != ""
    ensures ParseBearer(header).Err? ==> r == ParseBearer(header)
    ensures ParseBearer(header).Ok? && verify(ParseBearer(header).value).None? ==> r == Err(InvalidToken)
  {
    var token := ParseBearer(header);
    if token.Err? then token
    else
      var claims := verify(token.value);
      if claims.None? then Err(InvalidToken)
      else if claims.value == "" then Err(MissingPhoneClaim)
      else Ok(claims.value)
  }

  // ---------------------------------------------------------------------------
  // Status updates and uploads

  const ValidStatuses: map<string, bool> :=
    map["connected" := true, "disconnected" := true, "connecting" := true, "error" := true]

  /** The whitelist lookup; a missing key reads as false. */
  function StatusAccepted(status: string): (r: bool)
    ensures r <==> status == "connected" || status == "disconnected" || status == "connecting" || status == "error"
  {
    status in ValidStatuses && ValidStatuses[status]
  }

  /** The two nullable timestamps stored with a status record. */
  datatype Timestamps = Timestamps(connectedAt: Option<int>, disconnectedAt: Option<int>)

  /**
   * updateConnectionStatus: "connected" records only the connection time,
   * "disconnected" only the disconnection time, anything else neither.
   */
  function ConnectionTimestamps(status: string, now: int): (r: Timestamps)
    ensures r.connectedAt.Some? <==> status == "connected"
    ensures r.disconnectedAt.Some? <==> status == "disconnected"
    ensures r.connectedAt.Some? ==> r.connectedAt.value == now
    ensures r.disconnectedAt.Some? ==> r.disconnectedAt.value == now
    ensures !(r.connectedAt.Some? && r.disconnectedAt.Some?)
  {
    if status == "connected" then Timestamps(Some(now), None)
    else if status == "disconnected" then Timestamps(None, Some(now))
    else Timestamps(None, None)
  }

  datatype StatsError =
    | MethodNotAllowed
    | Unauthorized
    | InvalidStatus
    | InvalidStatistics
    | UsernameRequired
    | Forbidden

  /** A connection record as inserted. */
  datatype StatusRecord = StatusRecord(username: string, status: string, serverId: string,
                                       ipAddress: string, times: Timestamps, createdAt: int)

  /**
   * handleVPNStatus up to the insert: POST, a valid token, a whitelisted status;
   * the record then carries the token's user name and the timestamps for the status.
   */
  function StatusUpdate(verb: string, header: string, verify: string -> Option<string>,
                        status: string, serverId: string, ipAddress: string, now: int)
    : (r: Result<StatusRecord, StatsError>)
    ensures r.Ok? <==> verb == "POST" && ValidateJwtToken(header, verify).Ok? && StatusAccepted(status)
    ensures r.Ok? ==> r.value.username == ValidateJwtToken(header, verify).value
    ensures r.Ok? ==> r.value.times == ConnectionTimestamps(status, now) && r.value.createdAt == now
    ensures r.Ok? ==> r.value.status == status && r.value.serverId == serverId && r.value.ipAddress == ipAddress
    ensures verb != "POST" ==> r == Err(MethodNotAllowed)
    ensures verb == "POST" && ValidateJwtToken(header, verify).Err? ==> r == Err(Unauthorized)
    ensures verb == "POST" && ValidateJwtToken(header, verify).Ok? && !StatusAccepted(status) ==> r == Err(InvalidStatus)
  {
    if verb != "POST" then Err(MethodNotAllowed)
    else
      var user := ValidateJwtToken(header, verify);
      if user.Err? then Err(Unauthorized)
      else if !StatusAccepted(status) then Err(InvalidStatus)
      else Ok(StatusRecord(user.value, status, serverId, ipAddress, ConnectionTimestamps(status, now), now))
  }

  /** handleVPNStats' value check: no negative byte count or duration. */
  function ValidateStatsUpload(bytesIn: int, bytesOut: int, duration: int): (r: Outcome<StatsError>)
    ensures r == Pass <==> bytesIn >= 0 && bytesOut >= 0 && duration >= 0
    ensures r.Fail? ==> r.error == InvalidStatistics
  {
    if bytesIn < 0 || bytesOut < 0 || duration < 0 then Fail(InvalidStatistics) else Pass
  }

  // ---------------------------------------------------------------------------
  // Reading statistics

  const AdminUsers: seq<string> := ["admin", "root", "administrator"]

  /** The early-return search of a list for an exact match. */
  function Listed(name: string, names: seq<string>): (r: bool)
    ensures r <==> name in names
  {
    if names == [] then false
    else if name == names[0] then true
    else
      var r := Listed(name, names[1..]);
      assert name in names <==> name == names[0] || name in names[1..];
      r
  }

  /** isAdmin: exactly the three listed names, compared case-sensitively. */
  function IsAdmin(username: string): (r: bool)
    ensures r <==> username == "admin" || username == "root" || username == "administrator"
  {
    Listed(username, AdminUsers)
  }

  /** Letter case matters: "Admin" and "ROOT" are not administrators. */
  lemma AdminIsCaseSensitive()
    ensures !IsAdmin("Admin") && !IsAdmin("ROOT")
  {
    assert "Admin" != "admin" by { assert "Admin"[0] != "admin"[0]; }
    assert "ROOT" != "root" by { assert "ROOT"[0] != "root"[0]; }
  }

  /** The own-statistics rule: the same user, or an administrator. */
  function CanReadStats(requested: string, authenticated: string): (r: bool)
    ensures r <==> requested == authenticated || IsAdmin(authenticated)
  {
    !(requested != authenticated && !IsAdmin(authenticated))
  }

  /** The user name addressed by /vpn/stats/{username}: the path less that prefix, non-empty. */
  function StatsUsername(path: string): (r: Option<string>)
    ensures r.Some? ==> r.value != ""
    ensures HasPrefix(path, "/vpn/stats/") ==>
      (r.Some? <==> |path| > 11) && (r.Some? ==> path == "/vpn/stats/" + r.value)
  {
    var username := TrimPrefix(path, "/vpn/stats/");
    if username == "" then None else Some(username)
  }

  /**
   * handleGetUserStats up to the queries: GET, a valid token, a user name in the
   * path, then the access rule; the result is the user whose statistics are read.
   */
  function GetUserStatsAccess(verb: string, header: string, verify: string -> Option<string>, path: string)
    : (r: Result<string, StatsError>)
    ensures r.Ok? ==> verb == "GET" && ValidateJwtToken(header, verify).Ok?
    ensures r.Ok? ==> StatsUsername(path) == Some(r.value)
    ensures r.Ok? ==> CanReadStats(r.value, ValidateJwtToken(header, verify).value)
    ensures r == Err(Forbidden) <==>
      verb == "GET" && ValidateJwtToken(header, verify).Ok? && StatsUsername(path).Some?
      && !CanReadStats(StatsUsername(path).value, ValidateJwtToken(header, verify).value)
    ensures verb == "GET" && ValidateJwtToken(header, verify).Ok? && StatsUsername(path).Some?
      && CanReadStats(StatsUsername(path).value, ValidateJwtToken(header, verify).value)
      ==> r == Ok(StatsUsername(path).value)
    ensures verb != "GET" ==> r == Err(MethodNotAllowed)
    ensures verb == "GET" && ValidateJwtToken(header, verify).Err? ==> r == Err(Unauthorized)
    ensures verb == "GET" && ValidateJwtToken(header, verify).Ok? && StatsUsername(path).None?
      ==> r == Err(UsernameRequired)
  {
    if verb != "GET" then Err(MethodNotAllowed)
    else
      var user := ValidateJwtToken(header, verify);
      if user.Err? then Err(Unauthorized)
      else
        var username := StatsUsername(path);
        if username.None? then Err(UsernameRequired)
        else if !CanReadStats(username.value, user.value) then Err(Forbidden)
        else Ok(username.value)
  }

  /** A caller whose token names a non-administrator only ever reads their own statistics. */
  lemma NonAdminReadsOwnStats(header: string, verify: string -> Option<string>, path: string)
    requires ValidateJwtToken(header, verify).Ok?
    requires !IsAdmin(ValidateJwtToken(header, verify).value)
    requires GetUserStatsAccess("GET", header, verify, path).Ok?
    ensures GetUserStatsAccess("GET", header, verify, path).value == ValidateJwtToken(header, verify).value
    ensures path == "/vpn/stats/" + ValidateJwtToken(header, verify).value || !HasPrefix(path, "/vpn/stats/")
  {
  }
}
