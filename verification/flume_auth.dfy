/** Credentials and device lookup of flumecli.py: `obtainCredentials`
    writes the token file, `loadCredentials` reads it back, and
    `getDevices` picks the bridge. The global `config` dictionary is an
    explicit `Config` value, the token file a two-field record on a `Disk`,
    HTTP replies are inputs, and JWT decoding is an uninterpreted function. */
module FlumeAuth {
  import opened Wrappers

  /** The entries of `config` these operations read or write. An empty
      string stands for a falsy value. */
  datatype Config = Config(
    clientId: string,
    clientSecret: string,
    username: string,
    password: string,
    tokenFile: string,
    accessToken: Option<string>,
    refreshToken: Option<string>,
    userId: Option<int>,
    deviceId: Option<string>)

  /** The token file's JSON object, `{"access_token", "refresh_token"}`. */
  datatype TokenFile = TokenFile(accessToken: string, refreshToken: string)

  /** Token files by path; a path not in the map has no file. */
  type Disk = map<string, TokenFile>

  datatype Session = Session(config: Config, disk: Disk)

  /** The reply to `POST /oauth/token`: `http_code`, and the two tokens of
      `data[0]` when the body has them. */
  datatype AuthReply = AuthReply(httpCode: int, tokens: Option<TokenFile>)

  /** The `user_id` claim of an access token, decoded without checking its
      signature; `None` when decoding raises or the claim is missing. */
  type Decoder = string -> Option<int>

  /** Why a credential operation raised or exited. */
  datatype AuthFault =
    /** `data[0]` or one of its token keys is absent. The source reads
        `refresh_token` only after decoding the access token, so a reply
        with neither a refresh token nor a decodable access token raises in
        the decoder there; both are exceptions, labelled `MissingTokens` here. */
    | MissingTokens
    | UndecodableToken     // the access token yields no `user_id` claim
    | CriticalNotCallable  // the non-200 branch calls `logging.CRITICAL`, an int: TypeError
    | NoTokenFilePath      // `loadCredentials` with an empty `tokenfile`: `quit()`
    | TokenFileAbsent      // `open` finds no file at the path

  predicate HasSecrets(c: Config) {
    Truthy(c.clientId) && Truthy(c.clientSecret) && Truthy(c.username) && Truthy(c.password)
  }

  /** The configuration after tokens `t` with claim `uid` were installed. */
  function WithTokens(c: Config, t: TokenFile, uid: int): Config {
    c.(accessToken := Some(t.accessToken), refreshToken := Some(t.refreshToken), userId := Some(uid))
  }

  /** `obtainCredentials(config)` given the server's `reply`. Without all
      four secrets nothing is sent and nothing changes. */
  function ObtainCredentials(s: Session, reply: AuthReply, decode: Decoder): (r: Result<Session, AuthFault>)
    ensures !HasSecrets(s.config) ==> r == Success(s)
    ensures HasSecrets(s.config) && reply.httpCode != 200 ==> r == Failure(CriticalNotCallable)
    ensures HasSecrets(s.config) && reply.httpCode == 200 && reply.tokens.None? ==> r == Failure(MissingTokens)
    ensures HasSecrets(s.config) && reply.httpCode == 200 && reply.tokens.Some? ==>
      (decode(reply.tokens.value.accessToken).None? ==> r == Failure(UndecodableToken))
      && (decode(reply.tokens.value.accessToken).Some? ==> r.Success?)
    ensures HasSecrets(s.config) && r.Success? ==>
      && reply.httpCode == 200 && reply.tokens.Some?
      && decode(reply.tokens.value.accessToken).Some?
      && r.value.config == WithTokens(s.config, reply.tokens.value, decode(reply.tokens.value.accessToken).value)
      && r.value.disk - {s.config.tokenFile} == s.disk - {s.config.tokenFile}
      && (Truthy(s.config.tokenFile) ==> s.config.tokenFile in r.value.disk && r.value.disk[s.config.tokenFile] == reply.tokens.value)
      && (!Truthy(s.config.tokenFile) ==> r.value.disk == s.disk)
  {
    var c := s.config;
    if !HasSecrets(c) then Success(s)
    else if reply.httpCode != 200 then Failure(CriticalNotCallable)
    else
      match reply.tokens
      case None => Failure(MissingTokens)
      case Some(t) =>
        match decode(t.accessToken)
        case None => Failure(UndecodableToken)
        case Some(uid) =>
          var disk := if Truthy(c.tokenFile) then s.disk[c.tokenFile := TokenFile(t.accessToken, t.refreshToken)] else s.disk;
          Success(Session(WithTokens(c, t, uid), disk))
  }

  /** `loadCredentials(config)` reading from `disk`. */
  function LoadCredentials(c: Config, disk: Disk, decode: Decoder): (r: Result<Config, AuthFault>)
    ensures !Truthy(c.tokenFile) ==> r == Failure(NoTokenFilePath)
    ensures Truthy(c.tokenFile) && c.tokenFile !in disk ==> r == Failure(TokenFileAbsent)
    ensures r.Success? ==>
      && c.tokenFile in disk
      && decode(disk[c.tokenFile].accessToken).Some?
      && r.value == WithTokens(c, disk[c.tokenFile], decode(disk[c.tokenFile].accessToken).value)
  {
    if !Truthy(c.tokenFile) then Failure(NoTokenFilePath)
    else if c.tokenFile !in disk then Failure(TokenFileAbsent)
    else
      var t := disk[c.tokenFile];
      match decode(t.accessToken)
      case None => Failure(UndecodableToken)
      case Some(uid) => Success(WithTokens(c, t, uid))
  }

  /** Token-file round trip: after a successful `obtainCredentials` that
      wrote a file, `loadCredentials` for the same path reads back the same
      access and refresh tokens and the same user id, for any configuration
      naming that path; on the configuration `obtainCredentials` left it
      changes nothing. */
  lemma ObtainThenLoad(s: Session, reply: AuthReply, decode: Decoder, c: Config)
    requires HasSecrets(s.config) && Truthy(s.config.tokenFile)
    requires ObtainCredentials(s, reply, decode).Success?
    requires c.tokenFile == s.config.tokenFile
    ensures var s' := ObtainCredentials(s, reply, decode).value;
      && LoadCredentials(c, s'.disk, decode).Success?
      && LoadCredentials(c, s'.disk, decode).value.accessToken == s'.config.accessToken == Some(reply.tokens.value.accessToken)
      && LoadCredentials(c, s'.disk, decode).value.refreshToken == s'.config.refreshToken == Some(reply.tokens.value.refreshToken)
      && LoadCredentials(c, s'.disk, decode).value.userId == s'.config.userId
      && LoadCredentials(s'.config, s'.disk, decode) == Success(s'.config)
  {
  }

  /** One entry of the device list: `{id, type}`. */
  datatype Device = Device(id: string, kind: int)

  /** The reply to `GET /users/{user_id}/devices`. */
  datatype DevicesReply = DevicesReply(httpCode: int, devices: seq<Device>)

  /** The bridge type code. */
  const BridgeType := 2

  /** Index of the last bridge in `devices`, if there is one. */
  function LastBridge(devices: seq<Device>): (r: Option<nat>)
    ensures r.Some? ==>
      && r.value < |devices| && devices[r.value].kind == BridgeType
      && forall j :: r.value < j < |devices| ==> devices[j].kind != BridgeType
    ensures r.None? ==> forall j :: 0 <= j < |devices| ==> devices[j].kind != BridgeType
  {
    if |devices| == 0 then None
    else if devices[|devices| - 1].kind == BridgeType then Some(|devices| - 1)
    else LastBridge(devices[..|devices| - 1])
  }

  /** The id of the last bridge in `devices`, or `current` when there is none. */
  function BridgeId(devices: seq<Device>, current: Option<string>): Option<string> {
    match LastBridge(devices)
    case Some(j) => Some(devices[j].id)
    case None => current
  }

  /** The `for bridge in data` loop: every bridge overwrites `device_id`. */
  function ScanBridges(devices: seq<Device>, current: Option<string>): (r: Option<string>)
    ensures (forall j :: 0 <= j < |devices| ==> devices[j].kind != BridgeType) ==> r == current
    ensures |devices| > 0 && devices[|devices| - 1].kind == BridgeType ==> r == Some(devices[|devices| - 1].id)
    decreases |devices|
  {
    if |devices| == 0 then current
    else ScanBridges(devices[1..], if devices[0].kind == BridgeType then Some(devices[0].id) else current)
  }

  /** The loop leaves the id of the last bridge, or the old value when the
      list has no bridge. */
  lemma {:induction false} ScanFindsLastBridge(devices: seq<Device>, current: Option<string>)
    ensures ScanBridges(devices, current) == BridgeId(devices, current)
    decreases |devices|
  {
    if |devices| > 0 {
      var next := if devices[0].kind == BridgeType then Some(devices[0].id) else current;
      ScanFindsLastBridge(devices[1..], next);
      var tail := devices[1..];
      match LastBridge(tail)
      case Some(j) =>
        assert devices[j + 1] == tail[j];
        assert forall k :: j + 1 < k < |devices| ==> devices[k] == tail[k - 1];
        assert LastBridge(devices) == Some(j + 1) by {
          LastBridgeUnique(devices, j + 1);
        }
      case None =>
        assert forall k :: 1 <= k < |devices| ==> devices[k] == tail[k - 1];
        if devices[0].kind == BridgeType {
          LastBridgeUnique(devices, 0);
        }
    }
  }

  /** An index holding a bridge with no bridge after it is the last bridge. */
  lemma LastBridgeUnique(devices: seq<Device>, j: nat)
    requires j < |devices| && devices[j].kind == BridgeType
    requires forall k :: j < k < |devices| ==> devices[k].kind != BridgeType
    ensures LastBridge(devices) == Some(j)
  {
  }

  /** `getDevices(config)` given the devices `reply`, and `authReply` for
      the `obtainCredentials` call a 401 triggers. A 401 re-obtains tokens
      but does not repeat the device lookup; only a 200 sets `device_id`,
      to the last bridge's id, and leaves it alone when there is no bridge. */
  function GetDevices(s: Session, reply: DevicesReply, authReply: AuthReply, decode: Decoder): (r: Result<Session, AuthFault>)
    ensures reply.httpCode == 401 ==> r == ObtainCredentials(s, authReply, decode)
    ensures reply.httpCode == 200 ==>
      && r.Success? && r.value.disk == s.disk
      && r.value.config.(deviceId := s.config.deviceId) == s.config
      && r.value.config.deviceId == BridgeId(reply.devices, s.config.deviceId)
    ensures reply.httpCode != 200 && reply.httpCode != 401 ==> r == Success(s)
  {
    var s1 :- if reply.httpCode == 401 then ObtainCredentials(s, authReply, decode) else Success(s);
    if reply.httpCode == 200 then
      ScanFindsLastBridge(reply.devices, s1.config.deviceId);
      Success(s1.(config := s1.config.(deviceId := ScanBridges(reply.devices, s1.config.deviceId))))
    else
      Success(s1)
  }
}
