/** The request rules of `app-pushapp/routers/PushRouter.js`: what each route
    accepts or rejects, how a platform and a device are registered, how the
    send filter becomes a device query, which key file a platform uses, and how
    the per-device results are tallied. The company and device collections are
    sequences in storage order; the provider sends (APNs, FCM, Huawei), the
    clock and the session-id generator are parameters. */
module PushRules {
  import opened Js
  import opened Base

  /** What a route answers: a value on success, or an HTTP status and error. */
  datatype Reply<T> = Ok(value: T) | Fail(status: int, error: string)

  /** The index of the first element satisfying `p`, as `Array.find` and
      `findOne` pick it. */
  function FirstIndex<T>(s: seq<T>, p: T -> bool): (r: Option<nat>)
    ensures r.Some? ==> r.value < |s| && p(s[r.value]) && forall j :: 0 <= j < r.value ==> !p(s[j])
    ensures r.None? <==> forall j :: 0 <= j < |s| ==> !p(s[j])
    decreases |s|
  {
    if |s| == 0 then None
    else if p(s[0]) then Some(0)
    else
      match FirstIndex(s[1..], p)
      case None => None
      case Some(k) =>
        assert forall j :: 1 <= j <= k ==> s[j] == s[1..][j - 1];
        Some(k + 1)
  }

  // ---------------------------------------------------------------------
  // Platforms: /register-platform and /upload-platform-file
  // ---------------------------------------------------------------------

  /** A platform configuration of a company. A missing field is `Undefined`. */
  datatype Platform = Platform(platformId: string, platformType: Value, bundleId: Value,
                               keyId: Value, teamId: Value, filePath: Value)

  /** A company (an "app"): its name, its id, the bundle id recorded as
      `app_id`, and its platforms. */
  datatype Company = Company(companyName: Value, companyId: string, appId: Value, platforms: seq<Platform>)

  /** The body of `/register-platform`. */
  datatype PlatformRequest = PlatformRequest(appName: Value, appId: Value, platformType: Value,
                                             bundleId: Value, ios: Value)

  /** The three guards of `/register-platform`, in order; `Accepted` when the
      request names an app, a platform type and a bundle id, and, for iOS,
      carries both signing-key fields. */
  datatype Verdict = Accepted | Rejected(status: int, error: string)

  function CheckPlatformRequest(b: PlatformRequest): (v: Verdict)
    ensures v.Accepted? <==>
      && (Truthy(b.appName) || Truthy(b.appId))
      && Truthy(b.platformType) && Truthy(b.bundleId)
      && (b.platformType == Str("ios") ==> Truthy(Prop(b.ios, "key_id")) && Truthy(Prop(b.ios, "team_id")))
    ensures v.Rejected? ==> v.status == 400
    ensures !Truthy(b.appName) && !Truthy(b.appId) ==> v == Rejected(400, "Either app_name or app_id is required")
    ensures (Truthy(b.appName) || Truthy(b.appId)) && Truthy(b.platformType) && Truthy(b.bundleId) && v.Rejected?
      ==> v.error == "Key ID and Team ID are required for iOS platform"
  {
    if !Truthy(b.appName) && !Truthy(b.appId) then
      Rejected(400, "Either app_name or app_id is required")
    else if !Truthy(b.platformType) || !Truthy(b.bundleId) then
      Rejected(400, "Platform type and bundle ID are required")
    else if b.platformType == Str("ios") && (!Truthy(Prop(b.ios, "key_id")) || !Truthy(Prop(b.ios, "team_id"))) then
      Rejected(400, "Key ID and Team ID are required for iOS platform")
    else
      Accepted
  }

  /** A successful registration: the collection after saving, the position
      of the company the platform was added to, and the new platform's id. */
  datatype PlatformAdded = PlatformAdded(db: seq<Company>, at: nat, platformId: string)

  /** `app_id` is recorded only by a company's first registration. */
  function RecordedAppId(c: Company, bundleId: Value): (r: Value)
    ensures Truthy(c.appId) ==> r == c.appId
    ensures !Truthy(c.appId) ==> r == bundleId
  {
    if Truthy(c.appId) then c.appId else bundleId
  }

  /** The platform entry `/register-platform` appends. */
  function NewPlatform(c: Company, b: PlatformRequest, now: int): Platform {
    Platform(c.companyId + "_" + ToStr(b.platformType) + "_" + IntToString(now), b.platformType, b.bundleId,
             Prop(b.ios, "key_id"), Prop(b.ios, "team_id"), Undefined)
  }

  /** Record `app_id` when unset and append the new platform. */
  function AddPlatform(c: Company, b: PlatformRequest, now: int): (r: Company)
    ensures r.companyName == c.companyName && r.companyId == c.companyId
    ensures r.appId == RecordedAppId(c, b.bundleId)
    ensures r.platforms == c.platforms + [NewPlatform(c, b, now)]
  {
    c.(appId := RecordedAppId(c, b.bundleId), platforms := c.platforms + [NewPlatform(c, b, now)])
  }

  predicate HasId(c: Company, id: Value) {
    Str(c.companyId) == id
  }

  predicate HasName(c: Company, name: Value) {
    c.companyName == name
  }

  /** `/register-platform`: with `app_id`, add the platform to that company
      (404 when there is none); otherwise create a company named `app_name`,
      refusing a name already taken. `now` is the clock reading that names a
      new company and `later` the one that names the new platform. */
  function RegisterPlatform(db: seq<Company>, b: PlatformRequest, now: int, later: int): (r: Reply<PlatformAdded>)
    ensures r.Fail? && r.status == 404 <==>
      CheckPlatformRequest(b).Accepted? && Truthy(b.appId) && forall i :: 0 <= i < |db| ==> !HasId(db[i], b.appId)
    ensures r.Fail? && r.status == 400 <==>
      || CheckPlatformRequest(b).Rejected?
      || (!Truthy(b.appId) && exists i :: 0 <= i < |db| && HasName(db[i], b.appName))
    ensures r.Fail? ==> r.status in {400, 404}
    ensures r.Ok? && Truthy(b.appId) ==>
      && r.value.at < |db| && HasId(db[r.value.at], b.appId)
      && (forall j :: 0 <= j < r.value.at ==> !HasId(db[j], b.appId))
      && r.value.db == db[r.value.at := AddPlatform(db[r.value.at], b, later)]
    ensures r.Ok? && !Truthy(b.appId) ==>
      && r.value.at == |db|
      && r.value.db == db + [AddPlatform(Company(b.appName, ToStr(b.appName) + "_" + IntToString(now), Undefined, []), b, later)]
    ensures r.Ok? ==> r.value.at < |r.value.db| && r.value.platformId == Last(r.value.db[r.value.at].platforms).platformId
  {
    match CheckPlatformRequest(b)
    case Rejected(status, error) => Fail(status, error)
    case Accepted =>
      if Truthy(b.appId) then
        match FirstIndex(db, (c: Company) => HasId(c, b.appId))
        case None => Fail(404, "No company found with the provided app_id")
        case Some(i) =>
          var c := AddPlatform(db[i], b, later);
          Ok(PlatformAdded(db[i := c], i, Last(c.platforms).platformId))
      else if FirstIndex(db, (c: Company) => HasName(c, b.appName)).Some? then
        Fail(400, "App name already exists. Please use the app_id instead")
      else
        var c := AddPlatform(Company(b.appName, ToStr(b.appName) + "_" + IntToString(now), Undefined, []), b, later);
        Ok(PlatformAdded(db + [c], |db|, Last(c.platforms).platformId))
  }

  function Last<T>(s: seq<T>): T
    requires |s| > 0
  {
    s[|s| - 1]
  }

  /** The `app_id` a company answers with is the bundle id of its first
      registration: a later registration through `app_id` leaves it alone. */
  lemma AppIdSetOnlyOnce(db: seq<Company>, first: PlatformRequest, later: PlatformRequest,
                         now1: int, later1: int, now2: int, later2: int)
    requires RegisterPlatform(db, first, now1, later1).Ok?
    requires var added := RegisterPlatform(db, first, now1, later1).value;
      && later.appId == Str(added.db[added.at].companyId)
      && forall j :: 0 <= j < |added.db| && j != added.at ==> added.db[j].companyId != added.db[added.at].companyId
    ensures var added := RegisterPlatform(db, first, now1, later1).value;
      var again := RegisterPlatform(added.db, later, now2, later2);
      again.Ok? ==> again.value.at == added.at && again.value.db[again.value.at].appId == added.db[added.at].appId
    ensures var added := RegisterPlatform(db, first, now1, later1).value;
      !Truthy(first.appId) ==> added.db[added.at].appId == first.bundleId
  {
    var added := RegisterPlatform(db, first, now1, later1).value;
    assert CheckPlatformRequest(first).Accepted?;
    assert Truthy(added.db[added.at].appId);
    var again := RegisterPlatform(added.db, later, now2, later2);
    if again.Ok? {
      assert HasId(added.db[again.value.at], later.appId);
      assert again.value.at == added.at;
    }
  }

  /** No two companies share a name. */
  ghost predicate UniqueNames(db: seq<Company>) {
    forall i, j :: 0 <= i < j < |db| ==> db[i].companyName != db[j].companyName
  }

  /** Registration never creates a second company with a taken name. */
  lemma RegistrationKeepsNamesUnique(db: seq<Company>, b: PlatformRequest, now: int, later: int)
    requires UniqueNames(db)
    ensures RegisterPlatform(db, b, now, later).Ok? ==> UniqueNames(RegisterPlatform(db, b, now, later).value.db)
  {
    var r := RegisterPlatform(db, b, now, later);
    if r.Ok? && !Truthy(b.appId) {
      assert forall i :: 0 <= i < |db| ==> !HasName(db[i], b.appName);
    }
  }

  /** The key file's extension: a `.p8` signing key for iOS, a JSON service
      file for every other platform. */
  function FileExtension(platformType: Value): (ext: string)
    ensures ext == "p8" <==> platformType == Str("ios")
    ensures ext != "p8" ==> ext == "json"
  {
    if platformType == Str("ios") then "p8" else "json"
  }

  /** Where a platform's key file lives below the `docs` directory, as path
      segments. The upload and the send routes both build this. */
  function KeyFilePath(appId: string, platformType: Value, platformId: string): seq<string> {
    ["docs", appId, ToStr(platformType), platformId + "." + FileExtension(platformType)]
  }

  /** The body of `/upload-platform-file`; `hasFile` is whether a file came
      with the request. */
  datatype UploadRequest = UploadRequest(appId: Value, platformId: Value, hasFile: bool)

  /** A stored key file: the collection after saving, the positions of the
      company and of its platform, and the file's path. */
  datatype Uploaded = Uploaded(db: seq<Company>, at: nat, slot: nat, filePath: seq<string>)

  /** `i` is the position of the first company with id `id`, the one `findOne`
      returns. */
  predicate FirstWithId(db: seq<Company>, id: Value, i: nat) {
    i < |db| && HasId(db[i], id) && forall j :: 0 <= j < i ==> !HasId(db[j], id)
  }

  /** The company has a platform with id `platformId`. */
  predicate HasPlatformId(c: Company, platformId: Value) {
    exists k :: 0 <= k < |c.platforms| && Str(c.platforms[k].platformId) == platformId
  }

  /** `/upload-platform-file`: store the key file of an existing platform and
      record its path on the platform. */
  function UploadPlatformFile(db: seq<Company>, u: UploadRequest): (r: Reply<Uploaded>)
    ensures r.Fail? && r.status == 400 <==> !Truthy(u.appId) || !Truthy(u.platformId) || !u.hasFile
    ensures r.Fail? ==> r.status in {400, 404}
    ensures r.Ok? <==>
      && Truthy(u.appId) && Truthy(u.platformId) && u.hasFile
      && exists i: nat :: FirstWithId(db, u.appId, i) && HasPlatformId(db[i], u.platformId)
    ensures r.Ok? ==>
      var i, k := r.value.at, r.value.slot;
      && i < |db| && HasId(db[i], u.appId) && (forall j :: 0 <= j < i ==> !HasId(db[j], u.appId))
      && k < |db[i].platforms| && Str(db[i].platforms[k].platformId) == u.platformId
      && r.value.filePath == KeyFilePath(db[i].companyId, db[i].platforms[k].platformType, db[i].platforms[k].platformId)
      && r.value.db == db[i := db[i].(platforms := db[i].platforms[k := db[i].platforms[k].(filePath := Str(Join(r.value.filePath, '/')))])]
    ensures r.Fail? && r.status == 404 ==>
      || (forall i :: 0 <= i < |db| ==> !HasId(db[i], u.appId))
      || (exists i: nat :: FirstWithId(db, u.appId, i) && !HasPlatformId(db[i], u.platformId))
  {
    if !Truthy(u.appId) || !Truthy(u.platformId) || !u.hasFile then
      Fail(400, "App ID, platform ID, and file are required")
    else
      match FirstIndex(db, (c: Company) => HasId(c, u.appId))
      case None =>
        assert forall i :: 0 <= i < |db| ==> !HasId(db[i], u.appId);
        Fail(404, "App not found")
      case Some(i) =>
        assert forall i': nat :: FirstWithId(db, u.appId, i') ==> i' == i;
        var c := db[i];
        match FirstIndex(c.platforms, (p: Platform) => Str(p.platformId) == u.platformId)
        case None => Fail(404, "Platform not found")
        case Some(k) =>
          var p := c.platforms[k];
          var path := KeyFilePath(c.companyId, p.platformType, p.platformId);
          Ok(Uploaded(db[i := c.(platforms := c.platforms[k := p.(filePath := Str(Join(path, '/')))])], i, k, path))
  }

  // ---------------------------------------------------------------------
  // Devices: /register, /register/user and /logout
  // ---------------------------------------------------------------------

  /** A stored device token. `userId` is `Undefined` while no user was ever
      associated; `status` is whether a user is logged in on it. */
  datatype Device = Device(deviceId: Value, token: Value, platform: Value, companyId: Value,
                           userId: Value, sessionId: string, status: bool, lastActive: int)

  /** The body of `/register`. */
  datatype DeviceRequest = DeviceRequest(deviceId: Value, token: Value, platform: Value, companyId: Value)

  /** A saved device and the session id the route answers with. */
  datatype Session = Session(devices: seq<Device>, sessionId: string)

  /** `/register`: refresh the token of a known device, keeping its session;
      otherwise store a new device with the session id `freshSession`. */
  function RegisterDevice(devices: seq<Device>, b: DeviceRequest, freshSession: string, now: int): (r: Reply<Session>)
    ensures r.Fail? <==> !Truthy(b.deviceId) || !Truthy(b.token) || !Truthy(b.platform) || !Truthy(b.companyId)
    ensures r.Fail? ==> r.status == 400
    ensures r.Ok? && (exists i :: 0 <= i < |devices| && devices[i].deviceId == b.deviceId) ==>
      exists i ::
        && 0 <= i < |devices| && devices[i].deviceId == b.deviceId
        && (forall j :: 0 <= j < i ==> devices[j].deviceId != b.deviceId)
        && r.value.sessionId == devices[i].sessionId
        && r.value.devices == devices[i := devices[i].(token := b.token, lastActive := now)]
    ensures r.Ok? && (forall i :: 0 <= i < |devices| ==> devices[i].deviceId != b.deviceId) ==>
      && r.value.sessionId == freshSession
      && r.value.devices == devices + [Device(b.deviceId, b.token, b.platform, b.companyId, Undefined, freshSession, true, now)]
  {
    if !Truthy(b.deviceId) || !Truthy(b.token) || !Truthy(b.platform) || !Truthy(b.companyId) then
      Fail(400, "Device ID, Company ID, token, and platform are required")
    else
      match FirstIndex(devices, (d: Device) => d.deviceId == b.deviceId)
      case Some(i) =>
        Ok(Session(devices[i := devices[i].(token := b.token, lastActive := now)], devices[i].sessionId))
      case None =>
        Ok(Session(devices + [Device(b.deviceId, b.token, b.platform, b.companyId, Undefined, freshSession, true, now)],
                   freshSession))
  }

  /** A device keeps its session across re-registrations: registering it again,
      whatever session id the generator would offer, answers with the id of
      the first registration. */
  lemma ReRegisterKeepsSession(devices: seq<Device>, b: DeviceRequest, b2: DeviceRequest,
                               s1: string, s2: string, now1: int, now2: int)
    requires RegisterDevice(devices, b, s1, now1).Ok?
    requires b2.deviceId == b.deviceId
    ensures var first := RegisterDevice(devices, b, s1, now1).value;
      var second := RegisterDevice(first.devices, b2, s2, now2);
      second.Ok? ==> second.value.sessionId == first.sessionId
  {
    var first := RegisterDevice(devices, b, s1, now1).value;
    match FirstIndex(devices, (d: Device) => d.deviceId == b.deviceId)
    case Some(i) =>
      assert first.devices[i].deviceId == b.deviceId && first.devices[i].sessionId == first.sessionId;
      assert forall j :: 0 <= j < i ==> first.devices[j].deviceId != b.deviceId;
      assert FirstIndex(first.devices, (d: Device) => d.deviceId == b2.deviceId) == Some(i);
    case None =>
      var n := |devices|;
      assert first.devices[n].deviceId == b.deviceId && first.devices[n].sessionId == first.sessionId;
      assert FirstIndex(first.devices, (d: Device) => d.deviceId == b2.deviceId) == Some(n);
  }

  /** A re-registration keeps the device's platform and company, even when the
      request names others. */
  lemma ReRegisterKeepsOwner(devices: seq<Device>, b: DeviceRequest, freshSession: string, now: int, i: nat)
    requires i < |devices| && devices[i].deviceId == b.deviceId
    requires forall j :: 0 <= j < i ==> devices[j].deviceId != b.deviceId
    requires RegisterDevice(devices, b, freshSession, now).Ok?
    ensures var saved := RegisterDevice(devices, b, freshSession, now).value.devices[i];
      && saved.platform == devices[i].platform && saved.companyId == devices[i].companyId
      && saved.token == b.token && saved.lastActive == now
  {
  }

  /** The body of `/register/user` and `/logout`. */
  datatype SessionRequest = SessionRequest(deviceId: Value, userId: Value, companyId: Value)

  /** The device a session request addresses: same device id and company. */
  predicate Addresses(b: SessionRequest, d: Device) {
    d.deviceId == b.deviceId && d.companyId == b.companyId
  }

  /** `/register/user` (`login`) and `/logout`: associate the user with the
      device and mark it logged in or out; only a login touches the activity
      time. */
  function SetLogin(devices: seq<Device>, b: SessionRequest, login: bool, now: int): (r: Reply<Session>)
    ensures r.Fail? ==> r.status == 400
    ensures r.Fail? && r.error == "Device ID and user ID are required" <==> !Truthy(b.deviceId) || !Truthy(b.userId)
    ensures r.Fail? <==>
      || !Truthy(b.deviceId) || !Truthy(b.userId)
      || forall i :: 0 <= i < |devices| ==> !Addresses(b, devices[i])
    ensures r.Ok? ==>
      exists i ::
        && 0 <= i < |devices| && Addresses(b, devices[i])
        && (forall j :: 0 <= j < i ==> !Addresses(b, devices[j]))
        && r.value.sessionId == devices[i].sessionId
        && r.value.devices == devices[i := devices[i].(userId := b.userId, status := login,
                                                       lastActive := if login then now else devices[i].lastActive)]
        && i < |r.value.devices| && Addresses(b, r.value.devices[i])
        && r.value.devices[i].status == login && r.value.devices[i].userId == b.userId
        && (login ==> r.value.devices[i].lastActive == now)
  {
    if !Truthy(b.deviceId) || !Truthy(b.userId) then
      Fail(400, "Device ID and user ID are required")
    else
      match FirstIndex(devices, (d: Device) => Addresses(b, d))
      case None => Fail(400, "Device ID not found. Please register the device token first.")
      case Some(i) =>
        var d := devices[i];
        var d' := d.(userId := b.userId, status := login, lastActive := if login then now else d.lastActive);
        Ok(Session(devices[i := d'], d.sessionId))
  }

  function RegisterUser(devices: seq<Device>, b: SessionRequest, now: int): (r: Reply<Session>)
    ensures r.Ok? ==>
      exists i ::
        && 0 <= i < |r.value.devices| && Addresses(b, r.value.devices[i])
        && r.value.devices[i].status == true && r.value.devices[i].userId == b.userId
        && r.value.devices[i].lastActive == now
  {
    SetLogin(devices, b, true, now)
  }

  function Logout(devices: seq<Device>, b: SessionRequest): (r: Reply<Session>)
    ensures r.Ok? ==>
      exists i ::
        && 0 <= i < |r.value.devices| && Addresses(b, r.value.devices[i])
        && r.value.devices[i].status == false && r.value.devices[i].userId == b.userId
  {
    SetLogin(devices, b, false, 0)
  }

  /** Logging out after logging in changes nothing but the status: the device
      keeps the user, the session and the login's activity time, and the two
      routes answer with the same session id. */
  lemma LogoutUndoesOnlyStatus(devices: seq<Device>, b: SessionRequest, now: int)
    requires RegisterUser(devices, b, now).Ok?
    ensures var login := RegisterUser(devices, b, now).value;
      var out := Logout(login.devices, b);
      && out.Ok?
      && out.value.sessionId == login.sessionId
      && out.value.devices == login.devices[IndexOf(login.devices, b) := login.devices[IndexOf(login.devices, b)].(status := false)]
  {
    assert SetLogin(devices, b, true, now).Ok?;
    var i := IndexOf(devices, b);
    SetLoginAt(devices, b, true, now, i);
    var login := RegisterUser(devices, b, now).value;
    assert forall j :: 0 <= j < i ==> login.devices[j] == devices[j];
    SetLoginAt(login.devices, b, false, 0, i);
    assert IndexOf(login.devices, b) == i;
  }

  /** With both ids present, a login or logout updates exactly the first device
      the request addresses. */
  lemma SetLoginAt(devices: seq<Device>, b: SessionRequest, login: bool, now: int, i: nat)
    requires Truthy(b.deviceId) && Truthy(b.userId)
    requires i < |devices| && Addresses(b, devices[i]) && forall j :: 0 <= j < i ==> !Addresses(b, devices[j])
    ensures SetLogin(devices, b, login, now)
         == Ok(Session(devices[i := devices[i].(userId := b.userId, status := login,
                                                lastActive := if login then now else devices[i].lastActive)],
                       devices[i].sessionId))
  {
    var p := (d: Device) => Addresses(b, d);
    var k := FirstIndex(devices, p);
    assert p(devices[i]);
    assert k.Some?;
    assert k.value == i;
  }

  /** The position of the first device a session request addresses. */
  function IndexOf(devices: seq<Device>, b: SessionRequest): (i: nat)
    requires exists i :: 0 <= i < |devices| && Addresses(b, devices[i])
    ensures i < |devices| && Addresses(b, devices[i]) && forall j :: 0 <= j < i ==> !Addresses(b, devices[j])
  {
    FirstIndex(devices, (d: Device) => Addresses(b, d)).value
  }

  // ---------------------------------------------------------------------
  // The send filter
  // ---------------------------------------------------------------------

  /** The `user_id` part of the device query. */
  datatype UserCond = UserIs(id: Value) | UserExists | UserMissing | AnyUser

  /** The `platform` part of the device query. */
  datatype PlatformCond = AnyPlatform | PlatformIn(names: seq<string>)

  /** A device query; every query also asks for `status: true`. */
  datatype Query = Query(user: UserCond, companyId: Value, platform: PlatformCond)

  /** Build the device query of a send route: `profileCode` is the user of the
      by-user route and `None` for the bulk route. `None` when
      `filter.platform` is truthy but not a string, so `split` throws. */
  function BuildQuery(profileCode: Option<Value>, appId: Value, filter: Value): (r: Option<Query>)
    ensures r.None? <==> Truthy(Prop(filter, "platform")) && !Prop(filter, "platform").Str?
    ensures r.Some? ==> r.value.companyId == appId
    ensures r.Some? ==> (r.value.platform.AnyPlatform? <==> !Truthy(Prop(filter, "platform")))
  {
    var fp := Prop(filter, "platform");
    if Truthy(fp) && !fp.Str? then None
    else
      var platform := if Truthy(fp) then PlatformIn(Split(fp.s, ' ')) else AnyPlatform;
      var st := Prop(filter, "session_type");
      var user :=
        if st == Str("user") then UserExists
        else if st == Str("guest") then UserMissing
        else if profileCode.Some? then UserIs(profileCode.value)
        else AnyUser;
      Some(Query(user, appId, platform))
  }

  /** Whether a stored device answers a query. `$exists: true, $ne: null`
      excludes a missing and a null user; `$exists: false` only a missing one. */
  predicate Matches(q: Query, d: Device) {
    && d.status
    && d.companyId == q.companyId
    && match q.user {
         case UserIs(id) => d.userId == id
         case UserExists => d.userId != Undefined && d.userId != Null
         case UserMissing => d.userId == Undefined
         case AnyUser => true
       }
    && match q.platform {
         case AnyPlatform => true
         case PlatformIn(names) => d.platform.Str? && d.platform.s in names
       }
  }

  /** The devices a send addresses, read off the request: logged-in devices of
      the app, on one of the listed platforms when a platform list is given,
      and, by session type, any user, no user, or the addressed user. */
  predicate Addressed(profileCode: Option<Value>, appId: Value, filter: Value, d: Device)
    requires !Truthy(Prop(filter, "platform")) || Prop(filter, "platform").Str?
  {
    var fp := Prop(filter, "platform");
    var st := Prop(filter, "session_type");
    && d.status && d.companyId == appId
    && (Truthy(fp) ==> d.platform.Str? && d.platform.s in Split(fp.s, ' '))
    && (st == Str("user") ==> d.userId != Undefined && d.userId != Null)
    && (st == Str("guest") ==> d.userId == Undefined)
    && (st != Str("user") && st != Str("guest") && profileCode.Some? ==> d.userId == profileCode.value)
  }

  /** The built query selects exactly the addressed devices. */
  lemma QuerySelectsAddressed(profileCode: Option<Value>, appId: Value, filter: Value, d: Device)
    requires !Truthy(Prop(filter, "platform")) || Prop(filter, "platform").Str?
    ensures BuildQuery(profileCode, appId, filter).Some?
    ensures Matches(BuildQuery(profileCode, appId, filter).value, d) <==> Addressed(profileCode, appId, filter, d)
  {
  }

  /** A filter with only a text `platform` builds a query for any user of the
      app on the platforms that text splits into. */
  lemma PlatformOnlyQuery(appId: Value, text: string)
    requires text != ""
    ensures BuildQuery(None, appId, Obj(map["platform" := Str(text)]))
         == Some(Query(AnyUser, appId, PlatformIn(Split(text, ' '))))
  {
    var filter := Obj(map["platform" := Str(text)]);
    assert Prop(filter, "platform") == Str(text);
    assert Prop(filter, "session_type") == Undefined;
  }

  /** A platform text that splits into `names` selects exactly the devices
      on one of `names`. */
  lemma SplitPlatformsSelect(text: string, names: seq<string>, d: Device, appId: Value)
    requires text != "" && Split(text, ' ') == names
    requires d.status && d.companyId == appId && d.platform.Str?
    ensures var q := BuildQuery(None, appId, Obj(map["platform" := Str(text)]));
      q.Some? && (Matches(q.value, d) <==> d.platform.s in names)
  {
    PlatformOnlyQuery(appId, text);
    var q := BuildQuery(None, appId, Obj(map["platform" := Str(text)]));
    assert q == Some(Query(AnyUser, appId, PlatformIn(names)));
    assert Matches(q.value, d) <==> d.platform.s in names;
  }

  /** A space-separated platform list selects exactly the platforms it lists. */
  lemma PlatformListSelectsListed(names: seq<string>, d: Device, appId: Value)
    requires |names| >= 1 && Join(names, ' ') != ""
    requires forall i :: 0 <= i < |names| ==> ' ' !in names[i]
    requires d.status && d.companyId == appId && d.platform.Str?
    ensures var q := BuildQuery(None, appId, Obj(map["platform" := Str(Join(names, ' '))]));
      q.Some? && (Matches(q.value, d) <==> d.platform.s in names)
  {
    SplitJoin(names, ' ');
    SplitPlatformsSelect(Join(names, ' '), names, d, appId);
  }

  /** A session type of "user" or "guest" replaces the profile-code condition,
      so the by-user route then reaches devices of other users as well. */
  lemma SessionTypeOverridesProfile(profileCode: Value, appId: Value, other: Device)
    requires other.status && other.companyId == appId && other.userId == Str("someone-else")
    requires profileCode != Str("someone-else")
    ensures var q := BuildQuery(Some(profileCode), appId, Obj(map["session_type" := Str("user")]));
      q.Some? && Matches(q.value, other)
    ensures var q := BuildQuery(Some(profileCode), appId, Null);
      q.Some? && !Matches(q.value, other)
  {
  }

  /** `DeviceToken.find(query)`: the matching devices in storage order. */
  function FindDevices(devices: seq<Device>, q: Query): (found: seq<Device>)
    ensures |found| <= |devices|
    ensures forall d :: d in found <==> d in devices && Matches(q, d)
  {
    if |devices| == 0 then []
    else
      var rest := FindDevices(devices[1..], q);
      assert forall d :: d in devices <==> d == devices[0] || d in devices[1..];
      if Matches(q, devices[0]) then [devices[0]] + rest else rest
  }

  /** Finding the devices of two stretches of storage finds those of the first
      stretch, then those of the second: the found devices keep storage order. */
  lemma {:induction false} FindDevicesAppend(a: seq<Device>, b: seq<Device>, q: Query)
    ensures FindDevices(a + b, q) == FindDevices(a, q) + FindDevices(b, q)
    decreases |a|
  {
    if |a| == 0 {
      assert a + b == b;
    } else {
      assert (a + b)[1..] == a[1..] + b;
      FindDevicesAppend(a[1..], b, q);
    }
  }

  // ---------------------------------------------------------------------
  // Per-device sends and the tally
  // ---------------------------------------------------------------------

  /** What a provider call did: delivered, or threw with a message. */
  datatype Outcome = Delivered | Threw(message: string)

  /** One entry of the `responses` list. A failure's error text is what
      `!r.error` tests; an empty text reads as no error. */
  datatype Response = Sent(platform: Value, token: Value) | Failed(platform: Value, token: Value, error: string)

  predicate Succeeded(r: Response) {
    !(r.Failed? && r.error != "")
  }

  /** The platforms a send route has a provider for. */
  predicate Supported(platform: Value) {
    platform == Str("ios") || platform == Str("android") || platform == Str("huawei")
  }

  /** `k` is the position of the first configuration of `platform`, the one
      `platforms.find` returns. */
  predicate FirstConfig(c: Company, platform: Value, k: nat) {
    k < |c.platforms| && c.platforms[k].platformType == platform
    && forall j :: 0 <= j < k ==> c.platforms[j].platformType != platform
  }

  /** The response one device contributes: a failure when the company has no
      configuration for its platform, the provider's result for a supported
      platform, and nothing for a configured but unsupported one. `deliver`
      stands for the provider call with the configuration found. */
  function DeviceResponse(c: Company, d: Device, deliver: (Device, Platform) -> Outcome): (r: Option<Response>)
    ensures r.None? <==> Supported(d.platform) == false && exists k :: 0 <= k < |c.platforms| && c.platforms[k].platformType == d.platform
    ensures (forall k :: 0 <= k < |c.platforms| ==> c.platforms[k].platformType != d.platform)
      ==> r == Some(Failed(d.platform, d.token, "Platform configuration not found"))
    ensures r.Some? && r.value.Sent? ==> Supported(d.platform) && r.value.platform == d.platform
    ensures forall k: nat :: FirstConfig(c, d.platform, k) && Supported(d.platform) ==>
      r == Some(match deliver(d, c.platforms[k])
                case Delivered => Sent(d.platform, d.token)
                case Threw(message) => Failed(d.platform, d.token, message))
  {
    match FirstIndex(c.platforms, (p: Platform) => p.platformType == d.platform)
    case None =>
      assert forall k :: 0 <= k < |c.platforms| ==> c.platforms[k].platformType != d.platform;
      Some(Failed(d.platform, d.token, "Platform configuration not found"))
    case Some(k) =>
      assert forall k': nat :: FirstConfig(c, d.platform, k') ==> k' == k;
      if !Supported(d.platform) then None
      else
        match deliver(d, c.platforms[k])
        case Delivered => Some(Sent(d.platform, d.token))
        case Threw(message) => Some(Failed(d.platform, d.token, message))
  }

  /** What each device contributes, position by position. */
  function PerDevice(c: Company, ds: seq<Device>, deliver: (Device, Platform) -> Outcome): seq<Option<Response>> {
    seq(|ds|, i requires 0 <= i < |ds| => DeviceResponse(c, ds[i], deliver))
  }

  /** The values present in a sequence of options, in order. */
  function Present<T>(s: seq<Option<T>>): seq<T> {
    if |s| == 0 then [] else (if s[0].Some? then [s[0].value] else []) + Present(s[1..])
  }

  lemma PerDeviceCons(c: Company, ds: seq<Device>, deliver: (Device, Platform) -> Outcome)
    requires |ds| > 0
    ensures PerDevice(c, ds, deliver)[0] == DeviceResponse(c, ds[0], deliver)
    ensures PerDevice(c, ds, deliver)[1..] == PerDevice(c, ds[1..], deliver)
  {
    var a, b := PerDevice(c, ds, deliver)[1..], PerDevice(c, ds[1..], deliver);
    assert |a| == |b|;
    forall j | 0 <= j < |a|
      ensures a[j] == b[j]
    {
      assert ds[1..][j] == ds[j + 1];
    }
  }

  /** The `responses` list of a send: one entry per device, in device order,
      except configured devices of an unsupported platform. */
  function DeviceResponses(c: Company, ds: seq<Device>, deliver: (Device, Platform) -> Outcome): (rs: seq<Response>)
    ensures rs == Present(PerDevice(c, ds, deliver))
    ensures |rs| <= |ds|
    ensures (forall i :: 0 <= i < |ds| ==> Supported(ds[i].platform)) ==>
      |rs| == |ds| && forall i :: 0 <= i < |ds| ==> Some(rs[i]) == DeviceResponse(c, ds[i], deliver)
  {
    if |ds| == 0 then []
    else
      var rest := DeviceResponses(c, ds[1..], deliver);
      PerDeviceCons(c, ds, deliver);
      match DeviceResponse(c, ds[0], deliver)
      case None => rest
      case Some(r) =>
        assert forall i :: 1 <= i < |ds| ==> ds[i] == ds[1..][i - 1];
        [r] + rest
  }

  /** `responses.filter((r) => !r.error).length`. */
  function CountSucceeded(rs: seq<Response>): (n: nat)
    ensures n <= |rs|
  {
    if |rs| == 0 then 0 else (if Succeeded(rs[0]) then 1 else 0) + CountSucceeded(rs[1..])
  }

  /** The responses carrying an error, counted on their own. */
  function CountFailed(rs: seq<Response>): nat {
    if |rs| == 0 then 0 else (if Succeeded(rs[0]) then 0 else 1) + CountFailed(rs[1..])
  }

  /** Every response is counted once, as sent or as failed. */
  lemma {:induction false} TallyPartitions(rs: seq<Response>)
    ensures CountSucceeded(rs) + CountFailed(rs) == |rs|
  {
    if |rs| > 0 {
      TallyPartitions(rs[1..]);
    }
  }

  /** The numbers a successful send reports. */
  datatype Tally = Tally(sent: nat, failed: int)

  /** The reply of `/send-notification-by-user` once the devices are found and
      sent to: 404 without devices, 500 when no send succeeded, otherwise the
      successes and `responses.length - successes` failures. */
  function ByUserReply(found: seq<Device>, rs: seq<Response>): (r: Reply<Tally>)
    ensures r.Fail? && r.status == 404 <==> |found| == 0
    ensures r.Fail? && r.status == 500 <==> |found| > 0 && forall i :: 0 <= i < |rs| ==> !Succeeded(rs[i])
    ensures r.Ok? ==> r.value.sent > 0 && r.value.failed == CountFailed(rs) && r.value.sent + r.value.failed == |rs|
  {
    TallyPartitions(rs);
    NoneSucceeded(rs);
    if |found| == 0 then Fail(404, "No active devices found matching the criteria")
    else
      var sent := CountSucceeded(rs);
      if sent == 0 then Fail(500, "Failed to send notifications to all devices")
      else Ok(Tally(sent, |rs| - sent))
  }

  /** No success is counted exactly when no response succeeded. */
  lemma {:induction false} NoneSucceeded(rs: seq<Response>)
    ensures CountSucceeded(rs) == 0 <==> forall i :: 0 <= i < |rs| ==> !Succeeded(rs[i])
  {
    if |rs| > 0 {
      NoneSucceeded(rs[1..]);
      assert forall i :: 1 <= i < |rs| ==> rs[i] == rs[1..][i - 1];
    }
  }

  /** The body of the two multi-device send routes. */
  datatype SendRequest = SendRequest(profileCode: Value, title: Value, message: Value, appId: Value, filter: Value)

  /** `/send-notification-by-user`, over the company and device collections. */
  function SendByUser(db: seq<Company>, devices: seq<Device>, b: SendRequest,
                      deliver: (Device, Platform) -> Outcome): (r: Reply<Tally>)
    ensures r.Fail? && r.status == 400 <==> !Truthy(b.profileCode) || !Truthy(b.message) || !Truthy(b.appId)
    ensures r.Ok? ==> r.value.sent > 0 && r.value.sent + r.value.failed <= |devices|
  {
    if !Truthy(b.profileCode) || !Truthy(b.message) || !Truthy(b.appId) then
      Fail(400, "Profile code, message, and app_id are required")
    else
      match FirstIndex(db, (c: Company) => HasId(c, b.appId))
      case None => Fail(404, "App not found")
      case Some(i) =>
        match BuildQuery(Some(b.profileCode), b.appId, b.filter)
        case None => Fail(500, "Failed to process notification request")
        case Some(q) =>
          var found := FindDevices(devices, q);
          ByUserReply(found, DeviceResponses(db[i], found, deliver))
  }

  /** A company without a configuration for any found device's platform
      answers 500: every response is a failure. */
  lemma UnconfiguredDevicesFail(c: Company, ds: seq<Device>, deliver: (Device, Platform) -> Outcome)
    requires |ds| > 0
    requires forall i, k :: 0 <= i < |ds| && 0 <= k < |c.platforms| ==> c.platforms[k].platformType != ds[i].platform
    ensures ByUserReply(ds, DeviceResponses(c, ds, deliver)) == Fail(500, "Failed to send notifications to all devices")
  {
    AllFail(c, ds, deliver);
  }

  lemma {:induction false} AllFail(c: Company, ds: seq<Device>, deliver: (Device, Platform) -> Outcome)
    requires forall i, k :: 0 <= i < |ds| && 0 <= k < |c.platforms| ==> c.platforms[k].platformType != ds[i].platform
    ensures forall i :: 0 <= i < |DeviceResponses(c, ds, deliver)| ==> !Succeeded(DeviceResponses(c, ds, deliver)[i])
  {
    if |ds| > 0 {
      AllFail(c, ds[1..], deliver);
    }
  }

  /** One configured device of a supported platform whose provider call
      delivers makes the by-user send succeed. */
  lemma {:induction false} OneDeliveryIsEnough(c: Company, ds: seq<Device>, deliver: (Device, Platform) -> Outcome, i: nat)
    requires i < |ds| && Supported(ds[i].platform)
    requires exists k :: 0 <= k < |c.platforms| && c.platforms[k].platformType == ds[i].platform
    requires forall k :: 0 <= k < |c.platforms| && c.platforms[k].platformType == ds[i].platform ==> deliver(ds[i], c.platforms[k]) == Delivered
    ensures CountSucceeded(DeviceResponses(c, ds, deliver)) > 0
  {
    ResponsesStep(c, ds, deliver);
    var head := DeviceResponse(c, ds[0], deliver);
    var rest := DeviceResponses(c, ds[1..], deliver);
    if i > 0 {
      OneDeliveryIsEnough(c, ds[1..], deliver, i - 1);
      if head.Some? {
        CountSucceededCons(head.value, rest);
      }
    } else {
      DeliveredIsSent(c, ds[0], deliver);
      CountSucceededCons(head.value, rest);
    }
  }

  /** The responses of a non-empty device list: the first device's, if any,
      then the rest's. */
  lemma ResponsesStep(c: Company, ds: seq<Device>, deliver: (Device, Platform) -> Outcome)
    requires |ds| > 0
    ensures var head := DeviceResponse(c, ds[0], deliver);
      DeviceResponses(c, ds, deliver) == (if head.Some? then [head.value] else []) + DeviceResponses(c, ds[1..], deliver)
  {
  }

  /** Putting a response in front adds one success exactly when it succeeded. */
  lemma CountSucceededCons(r: Response, rest: seq<Response>)
    ensures CountSucceeded([r] + rest) == (if Succeeded(r) then 1 else 0) + CountSucceeded(rest)
  {
    assert ([r] + rest)[1..] == rest;
  }

  /** A configured device of a supported platform whose provider call delivers
      gets a success response. */
  lemma DeliveredIsSent(c: Company, d: Device, deliver: (Device, Platform) -> Outcome)
    requires Supported(d.platform)
    requires exists k :: 0 <= k < |c.platforms| && c.platforms[k].platformType == d.platform
    requires forall k :: 0 <= k < |c.platforms| && c.platforms[k].platformType == d.platform ==> deliver(d, c.platforms[k]) == Delivered
    ensures DeviceResponse(c, d, deliver) == Some(Sent(d.platform, d.token))
  {
    var k :| 0 <= k < |c.platforms| && c.platforms[k].platformType == d.platform;
    var f := FirstIndex(c.platforms, (p: Platform) => p.platformType == d.platform);
    assert f.Some?;
  }

  // ---------------------------------------------------------------------
  // Where the key files live on disk
  // ---------------------------------------------------------------------

  /** A relative path resolved against a directory; for segments without
      separators or `..`, `path.join` concatenates them. */
  function Resolve(dir: seq<string>, path: seq<string>): seq<string> {
    dir + path
  }

  /** The key file a send route opens for device `d` of company `c`, addressed
      by `appId`: `path.join(__dirname, "..", "docs", appId, platform, file)`
      named after the first configuration of the device's platform. `appDir`
      is `__dirname/..`, the directory above the router. None when the company
      has no configuration for the platform. */
  function SendKeyFile(appDir: seq<string>, c: Company, appId: string, d: Device): (r: Option<seq<string>>)
    ensures r.None? <==> forall k :: 0 <= k < |c.platforms| ==> c.platforms[k].platformType != d.platform
    ensures forall k: nat :: FirstConfig(c, d.platform, k) ==>
      r == Some(appDir + ["docs", appId, ToStr(d.platform), c.platforms[k].platformId + "." + FileExtension(d.platform)])
  {
    match FirstIndex(c.platforms, (p: Platform) => p.platformType == d.platform)
    case None => None
    case Some(k) =>
      assert forall k': nat :: FirstConfig(c, d.platform, k') ==> k' == k;
      Some(appDir + KeyFilePath(appId, d.platform, c.platforms[k].platformId))
  }

  /** After an upload, the platform it stored the file for is the first
      configuration of its type (when no earlier one shares the type), and the
      send computes the uploaded path below its own directory. */
  lemma SendKeyFileAfterUpload(db: seq<Company>, u: UploadRequest, d: Device, appDir: seq<string>)
    requires UploadPlatformFile(db, u).Ok?
    requires var up := UploadPlatformFile(db, u).value;
      && d.platform == db[up.at].platforms[up.slot].platformType
      && forall k :: 0 <= k < up.slot ==> db[up.at].platforms[k].platformType != d.platform
    ensures var up := UploadPlatformFile(db, u).value;
      SendKeyFile(appDir, up.db[up.at], ToStr(u.appId), d) == Some(Resolve(appDir, up.filePath))
  {
    var up := UploadPlatformFile(db, u).value;
    var c := up.db[up.at];
    assert c.platforms[up.slot].platformType == d.platform;
    assert forall k :: 0 <= k < up.slot ==> c.platforms[k] == db[up.at].platforms[k];
    assert FirstConfig(c, d.platform, up.slot);
  }

  /** Finding, as written: the upload stores the key file relative to the
      process's working directory `cwd`, while the send routes open it relative
      to the app directory. The send finds the uploaded file exactly when the
      server runs from inside the app directory. */
  lemma SendFindsUploadOnlyFromAppDir(db: seq<Company>, u: UploadRequest, d: Device, cwd: seq<string>, appDir: seq<string>)
    requires UploadPlatformFile(db, u).Ok?
    requires var up := UploadPlatformFile(db, u).value;
      && d.platform == db[up.at].platforms[up.slot].platformType
      && forall k :: 0 <= k < up.slot ==> db[up.at].platforms[k].platformType != d.platform
    ensures var up := UploadPlatformFile(db, u).value;
      SendKeyFile(appDir, up.db[up.at], ToStr(u.appId), d) == Some(Resolve(cwd, up.filePath)) <==> cwd == appDir
  {
    var up := UploadPlatformFile(db, u).value;
    SendKeyFileAfterUpload(db, u, d, appDir);
    if appDir + up.filePath == cwd + up.filePath {
      assert |appDir| == |cwd|;
      assert appDir == (appDir + up.filePath)[..|appDir|];
      assert cwd == (cwd + up.filePath)[..|cwd|];
    }
  }

  /** Finding, the input that shows it: a server started from the repository
      root, whose push routers sit in `app-pushapp/routers`, stores key files
      where the sends never look. */
  lemma UploadFromRootIsNotFound(db: seq<Company>, u: UploadRequest, d: Device, root: seq<string>)
    requires UploadPlatformFile(db, u).Ok?
    requires var up := UploadPlatformFile(db, u).value;
      && d.platform == db[up.at].platforms[up.slot].platformType
      && forall k :: 0 <= k < up.slot ==> db[up.at].platforms[k].platformType != d.platform
    ensures var up := UploadPlatformFile(db, u).value;
      SendKeyFile(root + ["app-pushapp"], up.db[up.at], ToStr(u.appId), d) != Some(Resolve(root, up.filePath))
  {
    SendFindsUploadOnlyFromAppDir(db, u, d, root, root + ["app-pushapp"]);
    assert |root + ["app-pushapp"]| != |root|;
  }

  /** Corrected: an upload that resolves the key file against the app
      directory, as the send routes do, stores it where every later send for a
      device of that platform opens it, and records that relative path on the
      platform. */
  lemma SendReadsUploadedFile(db: seq<Company>, u: UploadRequest, d: Device, appDir: seq<string>)
    requires UploadPlatformFile(db, u).Ok?
    requires var up := UploadPlatformFile(db, u).value;
      && d.platform == db[up.at].platforms[up.slot].platformType
      && forall k :: 0 <= k < up.slot ==> db[up.at].platforms[k].platformType != d.platform
    ensures var up := UploadPlatformFile(db, u).value;
      && SendKeyFile(appDir, up.db[up.at], ToStr(u.appId), d) == Some(Resolve(appDir, up.filePath))
      && up.db[up.at].platforms[up.slot].filePath == Str(Join(up.filePath, '/'))
  {
    SendFindsUploadOnlyFromAppDir(db, u, d, appDir, appDir);
  }

  /** `/send-notification-bulk` as written: the configuration lookup names
      `platform` and `platformConfig`, which the route never declares, so every
      device's attempt throws a ReferenceError that the loop records as a
      failure. */
  function BulkResponsesAsWritten(ds: seq<Device>): (rs: seq<Response>)
    ensures |rs| == |ds|
    ensures forall i :: 0 <= i < |ds| ==> rs[i] == Failed(ds[i].platform, ds[i].token, "platform is not defined")
  {
    seq(|ds|, i requires 0 <= i < |ds| => Failed(ds[i].platform, ds[i].token, "platform is not defined"))
  }

  /** The bulk reply: always 200 once devices were found, with the tally. */
  function BulkReply(found: seq<Device>, rs: seq<Response>): (r: Reply<Tally>)
    ensures r.Fail? <==> |found| == 0
    ensures r.Ok? ==> r.value.sent + r.value.failed == |rs| && r.value.failed == CountFailed(rs)
  {
    TallyPartitions(rs);
    if |found| == 0 then Fail(404, "No active devices found matching the criteria")
    else Ok(Tally(CountSucceeded(rs), |rs| - CountSucceeded(rs)))
  }

  /** As written, the bulk route answers 200 while reporting that not one
      device was sent to, whatever the providers would do. */
  lemma BulkAsWrittenSendsNothing(found: seq<Device>)
    requires |found| > 0
    ensures BulkReply(found, BulkResponsesAsWritten(found)) == Ok(Tally(0, |found|))
  {
    var rs := BulkResponsesAsWritten(found);
    NoneSucceeded(rs);
    assert forall i :: 0 <= i < |rs| ==> !Succeeded(rs[i]);
  }

  /** `/send-notification-bulk` as written: validation, the company and the
      device query as in the corrected route, then the failing loop. */
  function SendBulkAsWritten(db: seq<Company>, devices: seq<Device>, b: SendRequest): (r: Reply<Tally>)
    ensures r.Fail? && r.status == 400 <==> !Truthy(b.message) || !Truthy(b.title) || !Truthy(b.appId)
    ensures r.Ok? ==> r.value.sent == 0 && 0 < r.value.failed <= |devices|
  {
    if !Truthy(b.message) || !Truthy(b.title) || !Truthy(b.appId) then
      Fail(400, "Title, message, and app_id are required")
    else
      match FirstIndex(db, (c: Company) => HasId(c, b.appId))
      case None => Fail(404, "App not found")
      case Some(i) =>
        match BuildQuery(None, b.appId, b.filter)
        case None => Fail(500, "Failed to send bulk notifications")
        case Some(q) =>
          var found := FindDevices(devices, q);
          if |found| == 0 then BulkReply(found, BulkResponsesAsWritten(found))
          else
            BulkAsWrittenSendsNothing(found);
            BulkReply(found, BulkResponsesAsWritten(found))
  }

  /** `/send-notification-bulk` with the evident intent: each device uses the
      configuration for its own platform, as the by-user route does. */
  function SendBulk(db: seq<Company>, devices: seq<Device>, b: SendRequest,
                    deliver: (Device, Platform) -> Outcome): (r: Reply<Tally>)
    ensures r.Fail? && r.status == 400 <==> !Truthy(b.message) || !Truthy(b.title) || !Truthy(b.appId)
    ensures r.Ok? ==> r.value.sent + r.value.failed <= |devices|
  {
    if !Truthy(b.message) || !Truthy(b.title) || !Truthy(b.appId) then
      Fail(400, "Title, message, and app_id are required")
    else
      match FirstIndex(db, (c: Company) => HasId(c, b.appId))
      case None => Fail(404, "App not found")
      case Some(i) =>
        match BuildQuery(None, b.appId, b.filter)
        case None => Fail(500, "Failed to send bulk notifications")
        case Some(q) =>
          var found := FindDevices(devices, q);
          BulkReply(found, DeviceResponses(db[i], found, deliver))
  }

  /** With the configuration looked up per device, a delivering provider for a
      configured device is counted as sent. */
  lemma BulkCorrectedDelivers(c: Company, found: seq<Device>, deliver: (Device, Platform) -> Outcome, i: nat)
    requires i < |found| && Supported(found[i].platform)
    requires exists k :: 0 <= k < |c.platforms| && c.platforms[k].platformType == found[i].platform
    requires forall k :: 0 <= k < |c.platforms| && c.platforms[k].platformType == found[i].platform ==> deliver(found[i], c.platforms[k]) == Delivered
    ensures BulkReply(found, DeviceResponses(c, found, deliver)).Ok?
    ensures BulkReply(found, DeviceResponses(c, found, deliver)).value.sent > 0
  {
    OneDeliveryIsEnough(c, found, deliver, i);
  }
}
