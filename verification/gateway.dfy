/**
 * What the console exchanges with the WhatsApp gateway: the request and
 * response shapes used by src/pages/index.tsx, the credential store (the
 * `username` and `password` cookies), and the logic of the two axios
 * interceptors that sit between the handlers and the network.
 */
module Gateway {

  datatype Option<+T> = None | Some(value: T)

  datatype Verb = Get | Post

  datatype DeviceStatus = Connected | Disconnected | Syncing

  /** One element of the `GET /device` answer. */
  datatype DeviceData = DeviceData(
    createdAt: int,
    deviceId: string,
    deviceName: string,
    deviceStatus: DeviceStatus,
    phoneNumber: string,
    updatedAt: int,
    userId: string)

  datatype Device = Device(id: string, data: DeviceData)

  /** Body of `POST /send`. */
  datatype SendPayload = SendPayload(deviceId: string, destination: string, kind: string, text: string)

  /** Body of `POST /device/connect` (`connectMethod` is its `method` field). */
  datatype ConnectPayload = ConnectPayload(deviceId: string, connectMethod: string, phoneNumber: string)

  datatype Body =
    | NoBody
    | SendBody(send: SendPayload)
    | CreateDeviceBody(deviceName: string)
    | ConnectBody(connect: ConnectPayload)

  /** A request as it leaves the request interceptor. */
  datatype Request = Request(verb: Verb, path: string, body: Body, authorization: Option<string>)

  /** A rejected call; `status` is `error.response.status`, absent when no response arrived (network error, timeout). */
  datatype HttpError = HttpError(status: Option<int>)

  /** The outcome of one awaited call. */
  datatype Response<+T> = Ok(data: T) | Err(error: HttpError)

  /** Answer of `POST /device`; `id` is absent when the body carries none. */
  datatype CreatedDevice = CreatedDevice(id: Option<string>)

  /** Answer of `POST /device/connect`. */
  datatype ConnectResult = ConnectResult(isConnected: bool, pairingCode: string, qrString: string)

  /** The two cookies; `None` is a cookie that is not set (`Cookies.get` returns undefined). */
  datatype Credentials = Credentials(username: Option<string>, password: Option<string>)

  const NoCredentials: Credentials := Credentials(None, None)

  const Unauthorized: int := 401

  /** `!!Cookies.get(name)?.length`: the cookie is set and not empty. */
  predicate Present(cookie: Option<string>) {
    cookie.Some? && |cookie.value| > 0
  }

  /** The user-pass string of section 2 of RFC 7617: user-id, a colon, the password. */
  function UserPass(username: string, password: string): (s: string)
    ensures |s| == |username| + 1 + |password|
    ensures s[..|username|] == username && s[|username|] == ':' && s[|username| + 1..] == password
  {
    username + ":" + password
  }

  /**
   * The request interceptor: the Authorization header value it attaches, if
   * any. `base64` stands for the browser's `btoa` (section 4 of RFC 4648).
   */
  function AuthorizationHeader(c: Credentials, base64: string -> string): (h: Option<string>)
    ensures h.Some? <==> Present(c.username) && Present(c.password)
    ensures h.Some? ==>
      |h.value| >= 6 && h.value[..6] == "Basic " &&
      h.value[6..] == base64(UserPass(c.username.value, c.password.value))
  {
    if Present(c.username) && Present(c.password) then
      Some("Basic " + base64(UserPass(c.username.value, c.password.value)))
    else
      None
  }

  /** The response interceptor's effect on the cookies: a 401 removes both, any other failure keeps them. */
  function CredentialsAfterError(c: Credentials, e: HttpError): (r: Credentials)
    ensures e.status == Some(Unauthorized) ==> r == NoCredentials
    ensures e.status != Some(Unauthorized) ==> r == c
  {
    if e.status == Some(Unauthorized) then NoCredentials else c
  }

  // ---------------------------------------------------------------------------
  // What the header means to the server

  /** Index of the first colon of `s`, or |s| when there is none. */
  function FirstColon(s: string): (k: nat)
    ensures k <= |s|
    ensures forall i :: 0 <= i < k ==> s[i] != ':'
    ensures k < |s| ==> s[k] == ':'
  {
    if s == [] || s[0] == ':' then 0 else 1 + FirstColon(s[1..])
  }

  /** How a server splits a decoded user-pass: the user-id ends at the first colon (section 2 of RFC 7617). */
  function ParseUserPass(s: string): (r: Option<(string, string)>)
    ensures r.None? <==> ':' !in s
  {
    var k := FirstColon(s);
    if k == |s| then None else Some((s[..k], s[k + 1..]))
  }

  /** A user name without a colon is recovered, together with the password, from the user-pass string. */
  lemma {:induction false} UserPassRoundTrip(username: string, password: string)
    requires ':' !in username
    ensures ParseUserPass(UserPass(username, password)) == Some((username, password))
  {
    var s := UserPass(username, password);
    var k := FirstColon(s);
    assert forall i | 0 <= i < |username| :: s[i] == username[i];
  }

  /**
   * The interceptor does not reject a user name that contains a colon, so two
   * different logins can produce the same header.
   */
  lemma ColonInUsernameIsAmbiguous(base64: string -> string)
    ensures var a := Credentials(Some("a:b"), Some("c"));
            var b := Credentials(Some("a"), Some("b:c"));
            a != b && AuthorizationHeader(a, base64) == AuthorizationHeader(b, base64)
  {
    assert UserPass("a:b", "c") == UserPass("a", "b:c");
  }

  /** After a 401 no request carries credentials until the next login. */
  lemma UnauthorizedRevokesHeader(c: Credentials, e: HttpError, base64: string -> string)
    requires e.status == Some(Unauthorized)
    ensures AuthorizationHeader(CredentialsAfterError(c, e), base64) == None
  {
  }

  /** A failed call never changes the header to a different one: it either stays or disappears. */
  lemma ErrorNeverChangesHeader(c: Credentials, e: HttpError, base64: string -> string)
    ensures var after := AuthorizationHeader(CredentialsAfterError(c, e), base64);
            after == None || after == AuthorizationHeader(c, base64)
  {
  }
}
