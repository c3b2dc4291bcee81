/**
 * Input rules of the VPN management server's HTTP API: user-name, port and
 * protocol validation, the request size and content-type filter, the CORS origin
 * allowlist, end-node path routing, the OVPN download path and the synthetic
 * end-node log listing.
 *
 * HTTP bodies, the database, the rate limiter and outgoing requests are not
 * modelled; where a decision depends on them it is a parameter.
 */
module ManagementApi {
  import opened Wrappers
  import opened GoStrings

  // ---------------------------------------------------------------------------
  // User names

  const ReservedUsernames: seq<string> := ["admin", "root", "system", "vpnmanager", "postgres", "nobody"]

  /** The character class [a-zA-Z0-9_]. */
  predicate IsUsernameChar(c: char) {
    IsUpper(c) || IsLower(c) || IsDigit(c) || c == '_'
  }

  /** The whole string matches ^[a-zA-Z0-9_]+$. */
  predicate MatchesUsernamePattern(s: string) {
    |s| >= 1 && forall i | 0 <= i < |s| :: IsUsernameChar(s[i])
  }

  /** Whether `name` equals, ignoring ASCII case, one of `names` (the early-return loop). */
  function MatchesAnyFold(name: string, names: seq<string>): (r: bool)
    ensures r <==> exists k | 0 <= k < |names| :: EqualFoldAscii(name, names[k])
  {
    if names == [] then false
    else if EqualFoldAscii(name, names[0]) then true
    else
      var r := MatchesAnyFold(name, names[1..]);
      assert forall k | 1 <= k < |names| :: names[1..][k - 1] == names[k];
      r
  }

  datatype InputError =
    | UsernameLength      // not 3 to 32 bytes
    | UsernameCharacters  // a character outside [a-zA-Z0-9_]
    | UsernameReserved    // a reserved name in any letter case
    | PortRange           // not 1 to 65535
    | ProtocolInvalid     // neither "udp" nor "tcp"

  /**
   * validateUsername: the byte length first, then the character class, then the
   * reserved names; the first failing check decides the error.
   */
  function ValidateUsername(name: string): (r: Outcome<InputError>)
    ensures r == Fail(UsernameLength) <==> Utf8Len(name) < 3 || Utf8Len(name) > 32
    ensures r == Fail(UsernameCharacters) <==>
      3 <= Utf8Len(name) <= 32 && !MatchesUsernamePattern(name)
    ensures r == Fail(UsernameReserved) <==>
      3 <= Utf8Len(name) <= 32 && MatchesUsernamePattern(name)
      && exists k | 0 <= k < |ReservedUsernames| :: EqualFoldAscii(name, ReservedUsernames[k])
    ensures r.Fail? ==> r.error in {UsernameLength, UsernameCharacters, UsernameReserved}
  {
    if Utf8Len(name) < 3 || Utf8Len(name) > 32 then Fail(UsernameLength)
    else if !MatchesUsernamePattern(name) then Fail(UsernameCharacters)
    else if MatchesAnyFold(name, ReservedUsernames) then Fail(UsernameReserved)
    else Pass
  }

  /** An accepted user name is ASCII, so its byte length is its character count, 3 to 32. */
  lemma {:induction false} AcceptedUsernameLength(name: string)
    requires ValidateUsername(name) == Pass
    ensures 3 <= |name| <= 32
    ensures forall i | 0 <= i < |name| :: IsUsernameChar(name[i])
  {
    assert IsAscii(name) by {
      forall i | 0 <= i < |name| ensures name[i] as int < 0x80 {
        assert IsUsernameChar(name[i]);
      }
    }
    Utf8LenAscii(name);
  }

  /** A reserved name is rejected in every letter case, e.g. "ADMIN" or "Root". */
  lemma ReservedInAnyCase(name: string, k: nat)
    requires k < |ReservedUsernames|
    requires EqualFoldAscii(name, ReservedUsernames[k])
    ensures ValidateUsername(name) == Fail(UsernameReserved)
  {
    var reserved := ReservedUsernames[k];
    assert |name| == |reserved|;
    assert forall i | 0 <= i < |name| :: ToLowerAscii(name[i]) == ToLowerAscii(reserved[i]);
    assert MatchesUsernamePattern(name) by {
      forall i | 0 <= i < |name| ensures IsUsernameChar(name[i]) {
        assert IsLower(reserved[i]);
        assert ToLowerAscii(name[i]) == reserved[i];
      }
    }
    assert IsAscii(name) by {
      forall i | 0 <= i < |name| ensures name[i] as int < 0x80 {
        assert IsUsernameChar(name[i]);
      }
    }
    Utf8LenAscii(name);
  }

  /** A non-ASCII name fails on the pattern even when its byte length is in range. */
  lemma NonAsciiUsernameRejected()
    ensures ValidateUsername("café") == Fail(UsernameCharacters)
  {
    assert Utf8Width('é') == 2;
    assert !IsUsernameChar("café"[3]);
  }

  /** validateUserInput: the user name rules, then 1 <= port <= 65535, then the protocol. */
  function ValidateUserInput(name: string, port: int, protocol: string): (r: Outcome<InputError>)
    ensures r == Pass <==>
      ValidateUsername(name) == Pass && 1 <= port <= 65535 && (protocol == "udp" || protocol == "tcp")
    ensures ValidateUsername(name).Fail? ==> r == ValidateUsername(name)
    ensures ValidateUsername(name) == Pass && !(1 <= port <= 65535) ==> r == Fail(PortRange)
    ensures ValidateUsername(name) == Pass && 1 <= port <= 65535 && protocol != "udp" && protocol != "tcp"
            ==> r == Fail(ProtocolInvalid)
  {
    var u := ValidateUsername(name);
    if u.Fail? then u
    else if port < 1 || port > 65535 then Fail(PortRange)
    else if protocol != "udp" && protocol != "tcp" then Fail(ProtocolInvalid)
    else Pass
  }

  const DefaultPort: int := 1194
  const DefaultProtocol: string := "udp"

  /**
   * handleCreateUser's validation followed by its defaulting of port 0 and an
   * empty protocol. Because validation already rejects both, an accepted request
   * reaches user creation exactly as it was sent.
   */
  function CreateUserSettings(name: string, port: int, protocol: string): (r: Result<(int, string), InputError>)
    ensures r.Ok? <==> ValidateUserInput(name, port, protocol) == Pass
    ensures r.Ok? ==> r.value == (port, protocol)
    ensures r.Err? ==> Fail(r.error) == ValidateUserInput(name, port, protocol)
  {
    var v := ValidateUserInput(name, port, protocol);
    if v.Fail? then Err(v.error)
    else
      var port' := if port == 0 then DefaultPort else port;
      var protocol' := if protocol == "" then DefaultProtocol else protocol;
      Ok((port', protocol'))
  }

  // ---------------------------------------------------------------------------
  // Request filter and CORS

  const MaxContentLength: int := 10 * 1024 * 1024

  datatype RequestError = RequestTooLarge | InvalidContentType

  /**
   * validateRequest: a declared length above 10 MiB is refused, then a present
   * Content-Type must mention JSON or multipart form data somewhere.
   */
  function ValidateRequest(contentLength: int, contentType: string): (r: Outcome<RequestError>)
    ensures r == Fail(RequestTooLarge) <==> contentLength > MaxContentLength
    ensures r == Fail(InvalidContentType) <==>
      contentLength <= MaxContentLength && contentType != ""
      && !Contains(contentType, "application/json") && !Contains(contentType, "multipart/form-data")
  {
    if contentLength > MaxContentLength then Fail(RequestTooLarge)
    else if contentType != "" && !Contains(contentType, "application/json")
            && !Contains(contentType, "multipart/form-data") then Fail(InvalidContentType)
    else Pass
  }

  /** A JSON content type with parameters, or no content type, passes within the size limit. */
  lemma JsonRequestAccepted(contentLength: int, params: string)
    requires contentLength <= MaxContentLength
    ensures ValidateRequest(contentLength, "application/json" + params) == Pass
    ensures ValidateRequest(contentLength, "") == Pass
  {
    ContainsPrefixOf("application/json", params);
  }

  const ProductionOrigins: seq<string> :=
    ["https://app.barqnet.com", "https://admin.barqnet.com", "https://dashboard.barqnet.com"]
  const DevelopmentOrigins: seq<string> :=
    ["http://localhost:3000", "http://localhost:8080", "http://127.0.0.1:3000"]

  /** The allowlist: the production origins, followed by the local ones in development. */
  function AllowedOrigins(environment: string): (r: seq<string>)
    ensures environment == "development" ==> r == ProductionOrigins + DevelopmentOrigins
    ensures environment != "development" ==> r == ProductionOrigins
  {
    if environment == "development" then ProductionOrigins + DevelopmentOrigins else ProductionOrigins
  }

  /**
   * The CORS part of the middleware: scan the allowlist for an exact match and,
   * when there is one, echo the request's origin in Access-Control-Allow-Origin.
   */
  method CorsAllowOrigin(origin: string, environment: string) returns (allow: Option<string>)
    ensures allow.Some? <==> origin in AllowedOrigins(environment)
    ensures allow.Some? ==> allow.value == origin
  {
    var allowed := ProductionOrigins;
    if environment == "development" {
      allowed := allowed + DevelopmentOrigins;
    }
    var isAllowed := false;
    var i := 0;
    while i < |allowed|
      invariant 0 <= i <= |allowed|
      invariant isAllowed <==> origin in allowed[..i]
    {
      if origin == allowed[i] {
        isAllowed := true;
        assert origin in allowed[..i + 1];
        break;
      }
      assert allowed[..i + 1] == allowed[..i] + [allowed[i]];
      i := i + 1;
    }
    assert isAllowed || allowed[..i] == allowed;
    allow := if isAllowed then Some(origin) else None;
  }

  /** Outside development the local origins never get the header. */
  lemma LocalOriginsOnlyInDevelopment(environment: string, k: nat)
    requires k < |DevelopmentOrigins|
    ensures DevelopmentOrigins[k] in AllowedOrigins(environment) <==> environment == "development"
  {
    if environment != "development" {
      assert DevelopmentOrigins[k] != ProductionOrigins[0];
      assert DevelopmentOrigins[k] != ProductionOrigins[1];
      assert DevelopmentOrigins[k] != ProductionOrigins[2];
    } else {
      assert DevelopmentOrigins[k] == (ProductionOrigins + DevelopmentOrigins)[3 + k];
    }
  }

  /** What the middleware does with a request after setting its headers. */
  datatype Disposition =
    | PreflightOk                    // OPTIONS answered with 200
    | RateLimited                    // 429
    | BadRequest(error: RequestError) // 400
    | Forward                        // handed to the routed handler

  datatype MiddlewareResult = MiddlewareResult(allowOrigin: Option<string>, disposition: Disposition)

  /**
   * The middleware's decision order: CORS header, then OPTIONS short-circuit, then
   * the rate limiter (`withinRateLimit` is its answer), then validateRequest.
   */
  method Middleware(origin: string, environment: string, verb: string, withinRateLimit: bool,
                    contentLength: int, contentType: string)
    returns (r: MiddlewareResult)
    ensures r.allowOrigin.Some? <==> origin in AllowedOrigins(environment)
    ensures r.allowOrigin.Some? ==> r.allowOrigin.value == origin
    ensures verb == "OPTIONS" ==> r.disposition == PreflightOk
    ensures verb != "OPTIONS" && !withinRateLimit ==> r.disposition == RateLimited
    ensures r.disposition.BadRequest? <==>
      verb != "OPTIONS" && withinRateLimit && ValidateRequest(contentLength, contentType).Fail?
    ensures r.disposition.BadRequest? ==>
      r.disposition.error == ValidateRequest(contentLength, contentType).error
    ensures r.disposition == Forward <==>
      verb != "OPTIONS" && withinRateLimit && ValidateRequest(contentLength, contentType) == Pass
  {
    var allow := CorsAllowOrigin(origin, environment);
    if verb == "OPTIONS" {
      return MiddlewareResult(allow, PreflightOk);
    }
    if !withinRateLimit {
      return MiddlewareResult(allow, RateLimited);
    }
    var v := ValidateRequest(contentLength, contentType);
    if v.Fail? {
      return MiddlewareResult(allow, BadRequest(v.error));
    }
    r := MiddlewareResult(allow, Forward);
  }

  // ---------------------------------------------------------------------------
  // End-node paths

  const EndNodesPrefix: string := "/api/endnodes/"
  const EndNodeDeletePrefix: string := "/api/endnodes/delete/"

  /** What an end-node request leads to. */
  datatype EndNodeAction =
    | ServerIdRequired       // 400: nothing after the prefix
    | MethodNotAllowed       // 405
    | Remove(id: string)     // RemoveEndNode(id)
    | Health(id: string)     // health update for id
    | Fetch(id: string)      // end-node information for id

  /** Drops a single trailing '/', if any. */
  function TrimTrailingSlash(s: string): (r: string)
    ensures s == r || s == r + "/"
    ensures |s| > 0 && s[|s| - 1] == '/' <==> s == r + "/"
  {
    if |s| > 0 && s[|s| - 1] == '/' then s[..|s| - 1] else s
  }

  /**
   * handleEndNodeOperations: the ID is the rest of the path with one trailing '/'
   * removed. A path ending in "/deregister" removes the node named before that
   * suffix (POST or DELETE only), one ending in "/health" updates health; other
   * paths are dispatched on the verb.
   */
  method RouteEndNodeOperation(path: string, verb: string) returns (action: EndNodeAction)
    requires HasPrefix(path, EndNodesPrefix)
    ensures var rest := path[|EndNodesPrefix|..];
      && (rest == "" ==> action == ServerIdRequired)
      && (rest != "" && HasSuffix(path, "/deregister") ==>
            action == if verb == "POST" || verb == "DELETE" then Remove(TrimSuffix(rest, "/deregister"))
                      else MethodNotAllowed)
      && (rest != "" && !HasSuffix(path, "/deregister") && HasSuffix(path, "/health") ==>
            action == Health(TrimSuffix(rest, "/health")))
      && (rest != "" && !HasSuffix(path, "/deregister") && !HasSuffix(path, "/health") ==>
            action == if verb == "GET" then Fetch(TrimTrailingSlash(rest))
                      else if verb == "DELETE" then Remove(TrimTrailingSlash(rest))
                      else MethodNotAllowed)
  {
    var serverId := path[|EndNodesPrefix|..];
    if serverId == "" {
      return ServerIdRequired;
    }
    if |serverId| - 1 >= 0 && serverId[|serverId| - 1] == '/' {
      serverId := serverId[..|serverId| - 1];
    }
    if HasSuffix(path, "/deregister") {
      serverId := TrimSuffix(serverId, "/deregister");
      action := if verb == "POST" || verb == "DELETE" then Remove(serverId) else MethodNotAllowed;
      return;
    }
    if HasSuffix(path, "/health") {
      serverId := TrimSuffix(serverId, "/health");
      return Health(serverId);
    }
    // The POST branch re-tests the "/deregister" suffix, which the test above has
    // already ruled out, so POST always ends in 405 here.
    if verb == "GET" {
      action := Fetch(serverId);
    } else if verb == "DELETE" {
      action := Remove(serverId);
    } else {
      action := MethodNotAllowed;
    }
  }

  /** handleEndNodeDelete: DELETE only, then the rest of the path less one trailing '/'. */
  method RouteEndNodeDelete(path: string, verb: string) returns (action: EndNodeAction)
    requires HasPrefix(path, EndNodeDeletePrefix)
    ensures verb != "DELETE" ==> action == MethodNotAllowed
    ensures verb == "DELETE" && path == EndNodeDeletePrefix ==> action == ServerIdRequired
    ensures verb == "DELETE" && path != EndNodeDeletePrefix ==>
      action == Remove(TrimTrailingSlash(path[|EndNodeDeletePrefix|..]))
  {
    if verb != "DELETE" {
      return MethodNotAllowed;
    }
    var serverId := path[|EndNodeDeletePrefix|..];
    if serverId == "" {
      return ServerIdRequired;
    }
    if |serverId| - 1 >= 0 && serverId[|serverId| - 1] == '/' {
      serverId := serverId[..|serverId| - 1];
    }
    action := Remove(serverId);
  }

  /** Deregistering "/api/endnodes/{id}/deregister" removes exactly `id`. */
  method DeregisterByPath(id: string, verb: string) returns (action: EndNodeAction)
    requires verb == "POST" || verb == "DELETE"
    ensures action == Remove(id)
  {
    var path := EndNodesPrefix + id + "/deregister";
    assert HasPrefix(path, EndNodesPrefix);
    assert path[|EndNodesPrefix|..] == id + "/deregister";
    assert HasSuffix(path, "/deregister") by {
      assert path[|path| - 11..] == "/deregister";
    }
    assert TrimSuffix(path[|EndNodesPrefix|..], "/deregister") == id;
    action := RouteEndNodeOperation(path, verb);
  }

  // ---------------------------------------------------------------------------
  // OVPN download path

  const OvpnPrefix: string := "/api/ovpn/"

  datatype OvpnTarget = OvpnTarget(username: string, serverId: string)

  /**
   * handleDownloadOVPN's path split: the path less "/api/ovpn/" is split on '/';
   * fewer than two pieces is a bad request, otherwise the first two pieces are
   * the user name and the server ID and any further pieces are ignored.
   */
  function ParseOvpnPath(path: string): (r: Option<OvpnTarget>)
    ensures r.Some? <==> '/' in TrimPrefix(path, OvpnPrefix)
  {
    var parts := Split(TrimPrefix(path, OvpnPrefix), '/');
    SplitHead(TrimPrefix(path, OvpnPrefix), '/');
    if |parts| < 2 then None else Some(OvpnTarget(parts[0], parts[1]))
  }

  /**
   * An accepted path is, after the prefix, the user name, one '/', and the server
   * ID, neither of which contains '/', followed by the end or by another '/':
   * they are the first and second segments, whole.
   */
  lemma OvpnPathPieces(path: string)
    requires ParseOvpnPath(path).Some?
    ensures var t := ParseOvpnPath(path).value;
      && '/' !in t.username && '/' !in t.serverId
      && HasPrefix(TrimPrefix(path, OvpnPrefix), t.username + "/" + t.serverId)
      && var rest := TrimPrefix(path, OvpnPrefix);
         var n := |t.username| + 1 + |t.serverId|;
         n == |rest| || rest[n] == '/'
  {
    var rest := TrimPrefix(path, OvpnPrefix);
    SplitFirstTwo(rest, '/');
    SplitSecondEnds(rest, '/');
    SplitPiecesFree(rest, '/');
    assert Split(rest, '/')[0] + ['/'] + Split(rest, '/')[1] == Split(rest, '/')[0] + "/" + Split(rest, '/')[1];
  }

  /** The path built from a user name and server ID without '/' parses back to them. */
  lemma OvpnPathRoundTrip(username: string, serverId: string)
    requires '/' !in username && '/' !in serverId
    ensures ParseOvpnPath(OvpnPrefix + username + "/" + serverId) == Some(OvpnTarget(username, serverId))
  {
    var path := OvpnPrefix + username + "/" + serverId;
    assert HasPrefix(path, OvpnPrefix);
    assert TrimPrefix(path, OvpnPrefix) == username + ['/'] + serverId;
    SplitPair(username + ['/'] + serverId, '/', username, serverId);
  }

  // ---------------------------------------------------------------------------
  // Synthetic end-node logs

  datatype EndNode = EndNode(name: string, host: string)

  /** An audit entry; `timestamp` is in seconds. */
  datatype AuditLog = AuditLog(id: int, timestamp: int, action: string, username: string,
                               details: string, ipAddress: string, serverId: string)

  /** The `kind`-th of the three entries made for `node` (0: user created, 1: OVPN, 2: health). */
  function EndNodeLogEntry(node: EndNode, id: int, kind: nat, now: int): (e: AuditLog)
    requires kind < 3
    ensures e.id == id && e.ipAddress == node.host && e.serverId == node.name
    ensures e.timestamp == now - 60 * [2, 7, 12][kind]
    ensures e.action == ["USER_CREATED", "OVPN_GENERATED", "HEALTH_CHECK"][kind]
  {
    if kind == 0 then
      AuditLog(id, now - 2 * 60, "USER_CREATED", "endnode",
               "User created on end-node " + node.name, node.host, node.name)
    else if kind == 1 then
      AuditLog(id, now - 7 * 60, "OVPN_GENERATED", "endnode",
               "OVPN file generated for user on " + node.name, node.host, node.name)
    else
      AuditLog(id, now - 12 * 60, "HEALTH_CHECK", node.name,
               "End-node " + node.name + " health check - status=healthy", node.host, node.name)
  }

  lemma DivModThree(k: nat, j: nat)
    requires j < 3
    ensures (3 * k + j) / 3 == k && (3 * k + j) % 3 == j
  {
  }

  /**
   * getEndNodeLogs: three entries per listed end-node, in list order, numbered
   * consecutively from 100; a listing error is passed on.
   */
  method GetEndNodeLogs(listed: Result<seq<EndNode>, string>, now: int)
    returns (r: Result<seq<AuditLog>, string>)
    ensures listed.Err? ==> r == Err(listed.error)
    ensures listed.Ok? ==> r.Ok? && |r.value| == 3 * |listed.value|
    ensures listed.Ok? ==> forall i | 0 <= i < |r.value| ::
              r.value[i].id == 100 + i && r.value[i].serverId == listed.value[i / 3].name
    ensures listed.Ok? ==> forall i | 0 <= i < |r.value| ::
              r.value[i] == EndNodeLogEntry(listed.value[i / 3], 100 + i, i % 3, now)
  {
    if listed.Err? {
      return Err(listed.error);
    }
    var nodes := listed.value;
    var allLogs: seq<AuditLog> := [];
    for n := 0 to |nodes|
      invariant |allLogs| == 3 * n
      invariant forall i | 0 <= i < |allLogs| ::
                  allLogs[i] == EndNodeLogEntry(nodes[i / 3], 100 + i, i % 3, now)
    {
      var node := nodes[n];
      var base := |allLogs|;
      var nodeLogs := [
        EndNodeLogEntry(node, 100 + base, 0, now),
        EndNodeLogEntry(node, 101 + base, 1, now),
        EndNodeLogEntry(node, 102 + base, 2, now)
      ];
      DivModThree(n, 0);
      DivModThree(n, 1);
      DivModThree(n, 2);
      allLogs := allLogs + nodeLogs;
    }
    r := Ok(allLogs);
  }
}
