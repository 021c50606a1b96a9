/**
 * The decision and state logic of the broadcast console page
 * (src/pages/index.tsx) as values: the page state, one transition per event
 * handler, and the facts the handlers promise. Every awaited call appears as
 * its outcome, an argument of the transition; `base64` stands for the
 * browser's `btoa`.
 */
module Page {
  import opened Gateway
  import opened Broadcast

  /** The value of the device select that stands for "create a new device first". */
  const AddNewDevice: string := "add-new-device"

  /** The login dialog's form (`loginFormData`). */
  datatype LoginForm = LoginForm(username: string, password: string)

  /** The device dialog's form (`newDeviceFormData`); `connectMethod` is its `method` field. */
  datatype NewDeviceForm = NewDeviceForm(deviceId: string, name: string, connectMethod: string, whatsappNumber: string)

  /**
   * The component state (`useState` hooks) the handlers read or write; the
   * login and device dialogs' own forms are arguments of the handlers.
   */
  datatype View = View(
    isAuthenticated: bool,
    isLoading: bool,
    showLoginModal: bool,
    showDeviceModal: bool,
    showConnectCodeModal: bool,
    showConnectQRCodeModal: bool,
    devices: seq<Device>,
    broadcastForm: BroadcastForm,
    connectDeviceCode: string,
    connectDeviceQR: string)

  /**
   * Everything the handlers act on: the two cookies, the component state and
   * the requests that went out, in order.
   */
  datatype PageState = PageState(credentials: Credentials, view: View, requests: seq<Request>)

  /** The page as first rendered, with whatever cookies the browser holds. */
  function Initial(cookies: Credentials): PageState {
    PageState(cookies, View(false, false, false, false, false, false, [], BroadcastForm("", "", ""), "", ""), [])
  }

  /** Where the add-device handler ends. */
  datatype AddDeviceOutcome =
    | Busy                              // a call was already in flight
    | CreateRejected                    // `POST /device` failed
    | NoDeviceId                        // no id to connect: the "error while adding a device" toast
    | ConnectRejected                   // `POST /device/connect` failed
    | ShowingPairingCode(code: string)  // not connected yet, method "code"
    | ShowingQr(qr: string)             // not connected yet, method "qr"
    | NotConnected                      // not connected yet, any other method
    | DeviceLinked                      // connected: the device list was fetched again
  {
    /** The handler reached `POST /device/connect`. */
    predicate ConnectAttempted() {
      ConnectRejected? || ShowingPairingCode? || ShowingQr? || NotConnected? || DeviceLinked?
    }
  }

  // ---------------------------------------------------------------------------
  // Requests and the two interceptors

  function FetchDevicesRequest(h: Option<string>): Request {
    Request(Get, "/device", NoBody, h)
  }

  function CreateDeviceRequest(form: NewDeviceForm, h: Option<string>): Request {
    Request(Post, "/device", CreateDeviceBody(form.name), h)
  }

  function ConnectDeviceRequest(form: NewDeviceForm, deviceId: string, h: Option<string>): Request {
    Request(Post, "/device/connect", ConnectBody(ConnectPayload(deviceId, form.connectMethod, form.whatsappNumber)), h)
  }

  function SendRequests(ps: seq<SendPayload>, h: Option<string>): (rs: seq<Request>)
    ensures |rs| == |ps|
  {
    seq(|ps|, i requires 0 <= i < |ps| => Request(Post, "/send", SendBody(ps[i]), h))
  }

  /** The header the request interceptor attaches in state `s`. */
  function HeaderIn(s: PageState, base64: string -> string): Option<string> {
    AuthorizationHeader(s.credentials, base64)
  }

  /** A request leaves through the request interceptor. */
  function Sent(s: PageState, verb: Verb, path: string, body: Body, base64: string -> string): PageState {
    s.(requests := s.requests + [Request(verb, path, body, HeaderIn(s, base64))])
  }

  /** The response interceptor on a failed call. */
  function Rejected(s: PageState, e: HttpError): PageState {
    s.(credentials := CredentialsAfterError(s.credentials, e))
  }

  // ---------------------------------------------------------------------------
  // The handlers

  /** `setIsLoading(flag)`. */
  function Loading(s: PageState, flag: bool): PageState {
    s.(view := s.view.(isLoading := flag))
  }

  /** A change event of the broadcast form. */
  function Edited(s: PageState, field: BroadcastField, value: string): PageState {
    s.(view := s.view.(broadcastForm := WithField(s.view.broadcastForm, field, value)))
  }

  /** `getDevicesData`: fetch the device list; a failure is swallowed once the interceptor ran. */
  function Fetched(s: PageState, answer: Response<seq<Device>>, base64: string -> string): PageState {
    var busy := Sent(Loading(s, true), Get, "/device", NoBody, base64);
    match answer
    case Err(e) => Loading(Rejected(busy, e), false)
    case Ok(data) =>
      var v := busy.view;
      var listed := if |data| > 0 then v.(devices := data, broadcastForm := v.broadcastForm.(deviceId := data[0].id))
                    else v;
      busy.(view := listed.(showLoginModal := false, isAuthenticated := true, isLoading := false))
  }

  /** `handleSubmitBroadcast`: one `POST /send` per line of the destination text, none of them awaited. */
  function Submitted(s: PageState, base64: string -> string): PageState {
    if s.view.isLoading then s
    else if !s.view.isAuthenticated then s.(view := s.view.(showLoginModal := true))
    else
      var busy := Loading(s, true);
      var sent := busy.(requests := busy.requests + SendRequests(SendPayloads(busy.view.broadcastForm), HeaderIn(busy, base64)));
      Loading(sent, false)
  }

  /** `handleLogin`: store the form's credentials as cookies, then fetch the devices with them. */
  function LoggedIn(s: PageState, form: LoginForm, answer: Response<seq<Device>>, base64: string -> string): PageState {
    if s.view.isLoading then s
    else Fetched(s.(credentials := Credentials(Some(form.username), Some(form.password))), answer, base64)
  }

  /** `handleLogout`: remove both cookies and leave the session. */
  function LoggedOut(s: PageState): PageState {
    PageState(NoCredentials, s.view.(isAuthenticated := false), s.requests)
  }

  // ---------------------------------------------------------------------------
  // The add-device decisions

  /** The id in the `POST /device` answer, if the call succeeded. */
  function CreatedId(created: Response<CreatedDevice>): Option<string> {
    if created.Ok? then created.data.id else None
  }

  /**
   * The device `POST /device/connect` is called for: the created device's id
   * when it is truthy, or the existing device that was selected.
   */
  function ConnectTarget(selection: string, createdId: Option<string>): (target: Option<string>)
    ensures target.Some? <==> selection != AddNewDevice || Present(createdId)
    ensures target.Some? ==> target.value == (if selection == AddNewDevice then createdId.value else selection)
  {
    if selection == AddNewDevice then
      (if Present(createdId) then createdId else None)
    else
      Some(selection)
  }

  /** What the handler does with the answer of `POST /device/connect`. */
  function ConnectOutcome(connectMethod: string, connected: Response<ConnectResult>): (r: AddDeviceOutcome)
    ensures r.ConnectAttempted()
  {
    if connected.Err? then ConnectRejected
    else if connected.data.isConnected then DeviceLinked
    else if connectMethod == "code" then ShowingPairingCode(connected.data.pairingCode)
    else if connectMethod == "qr" then ShowingQr(connected.data.qrString)
    else NotConnected
  }

  /** Where the add-device handler goes once `POST /device` has answered. */
  function CreateOutcome(form: NewDeviceForm, created: Response<CreatedDevice>, connected: Response<ConnectResult>): AddDeviceOutcome {
    match created
    case Err(_) => CreateRejected
    case Ok(d) => if Present(d.id) then ConnectOutcome(form.connectMethod, connected) else NoDeviceId
  }

  /** Which way the add-device handler goes, given the outcomes of its calls. */
  function AddDeviceDecision(form: NewDeviceForm, created: Response<CreatedDevice>, connected: Response<ConnectResult>): AddDeviceOutcome {
    if form.deviceId == AddNewDevice then CreateOutcome(form, created, connected)
    else ConnectOutcome(form.connectMethod, connected)
  }

  /**
   * The handler creates a device only for the "add-new-device" selection,
   * reports an error when no id is known, calls `POST /device/connect`
   * exactly when the connect guard holds, and then shows the pairing code or
   * the QR string, or refreshes the list once the device is connected.
   */
  lemma AddDeviceDecisionCases(form: NewDeviceForm, created: Response<CreatedDevice>, connected: Response<ConnectResult>)
    ensures var r := AddDeviceDecision(form, created, connected);
      && r != Busy
      && (r == CreateRejected <==> form.deviceId == AddNewDevice && created.Err?)
      && (r == NoDeviceId <==> form.deviceId == AddNewDevice && created.Ok? && !Present(created.data.id))
      && (r.ConnectAttempted() <==> ConnectTarget(form.deviceId, CreatedId(created)).Some?)
      && (r == ConnectRejected <==> r.ConnectAttempted() && connected.Err?)
      && (r == DeviceLinked <==> r.ConnectAttempted() && connected.Ok? && connected.data.isConnected)
      && (r.ShowingPairingCode? <==>
            r.ConnectAttempted() && connected.Ok? && !connected.data.isConnected && form.connectMethod == "code")
      && (r.ShowingQr? <==>
            r.ConnectAttempted() && connected.Ok? && !connected.data.isConnected && form.connectMethod == "qr")
      && (r.ShowingPairingCode? ==> r.code == connected.data.pairingCode)
      && (r.ShowingQr? ==> r.qr == connected.data.qrString)
  {
  }

  /** The part of `handleAddDevice` after a device id is known: connect it and act on the answer. */
  function AfterConnect(s: PageState, form: NewDeviceForm, deviceId: string, connected: Response<ConnectResult>,
                     refreshed: Response<seq<Device>>, base64: string -> string): PageState
  {
    var sent := Sent(s, Post, "/device/connect", ConnectBody(ConnectPayload(deviceId, form.connectMethod, form.whatsappNumber)), base64);
    match ConnectOutcome(form.connectMethod, connected)
    case ConnectRejected => Rejected(sent, connected.error)
    case ShowingPairingCode(code) => sent.(view := sent.view.(connectDeviceCode := code, showConnectCodeModal := true))
    case ShowingQr(qr) => sent.(view := sent.view.(connectDeviceQR := qr, showConnectQRCodeModal := true))
    case DeviceLinked =>
      var refetched := Fetched(sent, refreshed, base64);
      refetched.(view := refetched.view.(showDeviceModal := false))
    case _ => sent
  }

  /** `handleAddDevice` once the loading flag is set and `POST /device` has been sent: connect the created device, if any. */
  function AfterCreate(s: PageState, form: NewDeviceForm, created: Response<CreatedDevice>,
                       connected: Response<ConnectResult>, refreshed: Response<seq<Device>>,
                       base64: string -> string): PageState
  {
    match created
    case Err(e) => Rejected(s, e)
    case Ok(d) =>
      if Present(d.id) then AfterConnect(s, form, d.id.value, connected, refreshed, base64) else s
  }

  /** The body of the `try` block of `handleAddDevice`: create a device when asked to, then connect the new or the selected one. */
  function Attempted(s: PageState, form: NewDeviceForm, created: Response<CreatedDevice>,
                     connected: Response<ConnectResult>, refreshed: Response<seq<Device>>,
                     base64: string -> string): PageState
  {
    if form.deviceId == AddNewDevice then
      AfterCreate(Sent(s, Post, "/device", CreateDeviceBody(form.name), base64), form, created, connected, refreshed, base64)
    else
      AfterConnect(s, form, form.deviceId, connected, refreshed, base64)
  }

  /**
   * `handleAddDevice`: unless a call is in flight, run the body with the
   * loading flag set and clear it at the end, whatever happened.
   */
  function AddedDevice(s: PageState, form: NewDeviceForm, created: Response<CreatedDevice>,
                       connected: Response<ConnectResult>, refreshed: Response<seq<Device>>,
                       base64: string -> string): PageState
  {
    if s.view.isLoading then s
    else Loading(Attempted(Loading(s, true), form, created, connected, refreshed, base64), false)
  }

  // ---------------------------------------------------------------------------
  // What the handlers promise

  /** The submit handler does nothing while a call is in flight. */
  lemma SubmitIgnoredWhileLoading(s: PageState, base64: string -> string)
    requires s.view.isLoading
    ensures Submitted(s, base64) == s
  {
  }

  /** Without a session the submit handler only opens the login dialog: no message goes out. */
  lemma SubmitWithoutSessionOpensLogin(s: PageState, base64: string -> string)
    requires !s.view.isLoading && !s.view.isAuthenticated
    ensures Submitted(s, base64) == s.(view := s.view.(showLoginModal := true))
  {
  }

  /**
   * With a session, submitting sends exactly one `POST /send` per line of the
   * destination text (newlines plus one), each carrying the selected device,
   * the raw line, the type "person" and the template unchanged, and the
   * Authorization header of the current cookies; nothing else changes.
   */
  lemma {:induction false} SubmitSendsOnePerLine(s: PageState, base64: string -> string, i: nat)
    requires !s.view.isLoading && s.view.isAuthenticated
    requires i < Newlines(s.view.broadcastForm.destinationNumbers) + 1
    ensures var t := Submitted(s, base64);
      var form := s.view.broadcastForm;
      && t.credentials == s.credentials && t.view == s.view
      && |t.requests| == |s.requests| + Newlines(form.destinationNumbers) + 1
      && t.requests[..|s.requests|] == s.requests
      && t.requests[|s.requests| + i] ==
           Request(Post, "/send",
                   SendBody(SendPayload(form.deviceId, SplitLines(form.destinationNumbers)[i], "person", form.messageTemplate)),
                   AuthorizationHeader(s.credentials, base64))
  {
    LineCount(s.view.broadcastForm.destinationNumbers);
  }

  /** The destinations posted by one submission, joined with newlines, are the destination text itself. */
  lemma {:induction false} SubmitSendsTextVerbatim(s: PageState, base64: string -> string)
    requires !s.view.isLoading && s.view.isAuthenticated
    ensures var sent := Submitted(s, base64).requests[|s.requests|..];
      |sent| >= 1 &&
      (forall k :: 0 <= k < |sent| ==> sent[k].body.SendBody?) &&
      JoinLines(seq(|sent|, k requires 0 <= k < |sent| && sent[k].body.SendBody? => sent[k].body.send.destination))
        == s.view.broadcastForm.destinationNumbers
  {
    var t := Submitted(s, base64);
    var ps := SendPayloads(s.view.broadcastForm);
    var sent := t.requests[|s.requests|..];
    assert sent == SendRequests(ps, HeaderIn(s, base64));
    PayloadsKeepText(s.view.broadcastForm);
    assert seq(|sent|, k requires 0 <= k < |sent| && sent[k].body.SendBody? => sent[k].body.send.destination)
        == Destinations(ps);
  }

  /** Login does nothing while a call is in flight. */
  lemma LoginIgnoredWhileLoading(s: PageState, form: LoginForm, answer: Response<seq<Device>>, base64: string -> string)
    requires s.view.isLoading
    ensures LoggedIn(s, form, answer, base64) == s
  {
  }

  /**
   * Login stores exactly the form's user name and password, and the fetch
   * that follows carries them; they stay stored unless that fetch is
   * answered with a 401.
   */
  lemma LoginStoresForm(s: PageState, form: LoginForm, answer: Response<seq<Device>>, base64: string -> string)
    requires !s.view.isLoading
    ensures var stored := Credentials(Some(form.username), Some(form.password));
      var t := LoggedIn(s, form, answer, base64);
      && t.requests == s.requests + [FetchDevicesRequest(AuthorizationHeader(stored, base64))]
      && t.credentials == (if answer.Err? then CredentialsAfterError(stored, answer.error) else stored)
      && (answer.Ok? ==> t.view.isAuthenticated)
  {
  }

  /** Logout removes both cookies: no later request carries an Authorization header; nothing else changes. */
  lemma LogoutRemovesCredentials(s: PageState, base64: string -> string)
    ensures var t := LoggedOut(s);
      && t.credentials == NoCredentials && HeaderIn(t, base64) == None
      && t.view == s.view.(isAuthenticated := false) && t.requests == s.requests
  {
  }

  /**
   * A successful fetch opens the session and closes the login dialog; a
   * non-empty list replaces the devices and selects the first one for the
   * broadcast, an empty list leaves both as they were.
   */
  lemma FetchSuccess(s: PageState, data: seq<Device>, base64: string -> string)
    ensures var t := Fetched(s, Ok(data), base64);
      && t.view.isAuthenticated && !t.view.showLoginModal && !t.view.isLoading
      && t.credentials == s.credentials
      && t.requests == s.requests + [FetchDevicesRequest(HeaderIn(s, base64))]
      && (|data| > 0 ==> t.view.devices == data && t.view.broadcastForm == s.view.broadcastForm.(deviceId := data[0].id))
      && (|data| == 0 ==> t.view.devices == s.view.devices && t.view.broadcastForm == s.view.broadcastForm)
      && t.view == s.view.(isAuthenticated := true, showLoginModal := false, isLoading := false,
                           devices := t.view.devices, broadcastForm := t.view.broadcastForm)
  {
  }

  /**
   * A 401 on the device fetch removes the cookies but leaves the session flag
   * as it was: a submission that follows still goes out, without an
   * Authorization header.
   */
  lemma UnauthorizedFetchKeepsSession(s: PageState, base64: string -> string)
    requires s.view.isAuthenticated && !s.view.isLoading
    ensures var t := Fetched(s, Err(HttpError(Some(Unauthorized))), base64);
      && t.view.isAuthenticated && t.credentials == NoCredentials
      && var u := Submitted(t, base64);
         |u.requests| > |t.requests| && u.requests[|t.requests|].authorization == None
  {
    var t := Fetched(s, Err(HttpError(Some(Unauthorized))), base64);
    LineCount(t.view.broadcastForm.destinationNumbers);
  }

  /** A failed fetch changes nothing but the cookies (a 401 removes them) and the request log. */
  lemma FetchFailure(s: PageState, e: HttpError, base64: string -> string)
    ensures var t := Fetched(s, Err(e), base64);
      && t.view == s.view.(isLoading := false)
      && t.credentials == CredentialsAfterError(s.credentials, e)
      && t.requests == s.requests + [FetchDevicesRequest(HeaderIn(s, base64))]
  {
  }

  /**
   * Once a device id is known, the handler sends `POST /device/connect` for it,
   * shows the pairing code or the QR string the gateway returned, and fetches
   * the device list again only when the device is connected.
   */
  lemma {:induction false} ConnectSteps(s: PageState, form: NewDeviceForm, deviceId: string,
                                        connected: Response<ConnectResult>, refreshed: Response<seq<Device>>,
                                        base64: string -> string)
    ensures var t := AfterConnect(s, form, deviceId, connected, refreshed, base64);
      var h := HeaderIn(s, base64);
      var outcome := ConnectOutcome(form.connectMethod, connected);
      var refresh := if outcome == DeviceLinked then [FetchDevicesRequest(h)] else [];
      && t.requests == s.requests + [ConnectDeviceRequest(form, deviceId, h)] + refresh
      && (outcome.ShowingPairingCode? ==> t.view.connectDeviceCode == outcome.code && t.view.showConnectCodeModal)
      && (outcome.ShowingQr? ==> t.view.connectDeviceQR == outcome.qr && t.view.showConnectQRCodeModal)
      && (outcome == DeviceLinked ==> !t.view.showDeviceModal)
      && (outcome != DeviceLinked ==> t.view.showDeviceModal == s.view.showDeviceModal)
      && (outcome != DeviceLinked ==> t.view.devices == s.view.devices && t.view.isAuthenticated == s.view.isAuthenticated)
      && (outcome == ConnectRejected ==> t.credentials == CredentialsAfterError(s.credentials, connected.error))
      && (outcome == DeviceLinked ==>
            var refetched := Fetched(s.(requests := s.requests + [ConnectDeviceRequest(form, deviceId, h)]), refreshed, base64);
            t.credentials == refetched.credentials && t.view == refetched.view.(showDeviceModal := false))
      && (outcome != ConnectRejected && outcome != DeviceLinked ==> t.credentials == s.credentials)
  {
    var sent := Sent(s, Post, "/device/connect", ConnectBody(ConnectPayload(deviceId, form.connectMethod, form.whatsappNumber)), base64);
    assert HeaderIn(sent, base64) == HeaderIn(s, base64);
  }

  /** Adding a device while a call is in flight changes nothing. */
  lemma AddDeviceIgnoredWhileLoading(s: PageState, form: NewDeviceForm, created: Response<CreatedDevice>,
                                     connected: Response<ConnectResult>, refreshed: Response<seq<Device>>,
                                     base64: string -> string)
    requires s.view.isLoading
    ensures AddedDevice(s, form, created, connected, refreshed, base64) == s
  {
  }

  /**
   * The add-device handler sends `POST /device` only for the "add-new-device"
   * selection and `POST /device/connect` only for the device the connect
   * guard names, both with the header of the cookies it started with; when
   * it runs, it ends with no call in flight.
   */
  lemma {:induction false} AddDeviceSteps(s: PageState, form: NewDeviceForm, created: Response<CreatedDevice>,
                                          connected: Response<ConnectResult>, refreshed: Response<seq<Device>>,
                                          base64: string -> string)
    requires !s.view.isLoading
    ensures var t := AddedDevice(s, form, created, connected, refreshed, base64);
      var h := HeaderIn(s, base64);
      var target := ConnectTarget(form.deviceId, CreatedId(created));
      var create := if form.deviceId == AddNewDevice then [CreateDeviceRequest(form, h)] else [];
      var afterCreate := Loading(s, true).(requests := s.requests + create);
      && !t.view.isLoading
      && (target.None? ==>
            && t.requests == s.requests + create && t.view == s.view
            && t.credentials == (if created.Err? then CredentialsAfterError(s.credentials, created.error) else s.credentials))
      && (target.Some? ==>
            t == Loading(AfterConnect(afterCreate, form, target.value, connected, refreshed, base64), false))
  {
    var h := HeaderIn(s, base64);
    var create := if form.deviceId == AddNewDevice then [CreateDeviceRequest(form, h)] else [];
    var busy := Loading(s, true);
    if form.deviceId == AddNewDevice {
      assert Sent(busy, Post, "/device", CreateDeviceBody(form.name), base64) == busy.(requests := s.requests + create);
    } else {
      assert busy == busy.(requests := s.requests + create);
    }
  }
}
