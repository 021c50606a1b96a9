/**
 * The broadcast console page (src/pages/index.tsx) as an object: the two
 * cookies, the component state and the log of outgoing requests are fields
 * that the event handlers update step by step. Each handler is proved to
 * move the page exactly as the matching transition of module Page says.
 */
module Console {
  import opened Gateway
  import opened Broadcast
  import opened Page

  class HomePage {
    /** The `username` and `password` cookies. */
    var credentials: Credentials
    /** The component's `useState` hooks. */
    var view: View
    /** Every request the page has sent, as it left the request interceptor. */
    var requests: seq<Request>
    /** The browser's `btoa`. */
    const base64: string -> string

    /** The fields as one value. */
    function State(): PageState
      reads this
    {
      PageState(credentials, view, requests)
    }

    constructor (cookies: Credentials, base64: string -> string)
      ensures State() == Initial(cookies) && this.base64 == base64
    {
      credentials := cookies;
      view := View(false, false, false, false, false, false, [], BroadcastForm("", "", ""), "", "");
      requests := [];
      this.base64 := base64;
    }

    /** The request interceptor: one request goes out, with the header the current cookies allow. */
    method Send(verb: Verb, path: string, body: Body)
      modifies this`requests
      ensures State() == Sent(old(State()), verb, path, body, base64)
    {
      requests := requests + [Request(verb, path, body, AuthorizationHeader(credentials, base64))];
    }

    /** The response interceptor on a failed call: a 401 removes both cookies. */
    method Reject(e: HttpError)
      modifies this`credentials
      ensures State() == Rejected(old(State()), e)
    {
      if e.status == Some(Unauthorized) {
        credentials := NoCredentials;
      }
    }

    /** `handleBroadcastFormDataChange` and the device select of the broadcast form. */
    method EditBroadcastForm(field: BroadcastField, value: string)
      modifies this`view
      ensures State() == Edited(old(State()), field, value)
    {
      view := view.(broadcastForm := WithField(view.broadcastForm, field, value));
    }

    /** `getDevicesData`. */
    method FetchDevices(answer: Response<seq<Device>>)
      modifies this`requests, this`credentials, this`view
      ensures State() == Fetched(old(State()), answer, base64)
    {
      view := view.(isLoading := true);
      Send(Get, "/device", NoBody);
      match answer {
        case Err(e) =>
          Reject(e);
        case Ok(data) =>
          if |data| > 0 {
            view := view.(devices := data, broadcastForm := view.broadcastForm.(deviceId := data[0].id));
          }
          view := view.(showLoginModal := false, isAuthenticated := true);
      }
      view := view.(isLoading := false);
    }

    /** `handleSubmitBroadcast`: the `forEach` that posts one message per line. */
    method SubmitBroadcast()
      modifies this`requests, this`view
      ensures State() == Submitted(old(State()), base64)
    {
      if view.isLoading {
        return;
      }
      if !view.isAuthenticated {
        view := view.(showLoginModal := true);
        return;
      }
      view := view.(isLoading := true);
      var lines := SplitLines(view.broadcastForm.destinationNumbers);
      ghost var payloads := SendPayloads(view.broadcastForm);
      ghost var start := State();
      var i := 0;
      while i < |lines|
        invariant 0 <= i <= |lines| == |payloads|
        invariant State() == start.(requests := start.requests + SendRequests(payloads[..i], HeaderIn(start, base64)))
      {
        Send(Post, "/send", SendBody(Payload(view.broadcastForm, lines[i])));
        assert payloads[..i + 1] == payloads[..i] + [payloads[i]];
        i := i + 1;
      }
      assert payloads[..i] == payloads;
      view := view.(isLoading := false);
    }

    /** `handleLogin`. */
    method Login(form: LoginForm, answer: Response<seq<Device>>)
      modifies this`requests, this`credentials, this`view
      ensures State() == LoggedIn(old(State()), form, answer, base64)
    {
      if view.isLoading {
        return;
      }
      credentials := Credentials(Some(form.username), Some(form.password));
      FetchDevices(answer);
    }

    /** `handleLogout`. */
    method Logout()
      modifies this`credentials, this`view
      ensures State() == LoggedOut(old(State()))
    {
      credentials := NoCredentials;
      view := view.(isAuthenticated := false);
    }

    /** The part of `handleAddDevice` after a device id is known. */
    method ConnectDevice(form: NewDeviceForm, deviceId: string,
                         connected: Response<ConnectResult>, refreshed: Response<seq<Device>>)
      returns (outcome: AddDeviceOutcome)
      modifies this`requests, this`credentials, this`view
      ensures outcome == ConnectOutcome(form.connectMethod, connected)
      ensures State() == AfterConnect(old(State()), form, deviceId, connected, refreshed, base64)
    {
      Send(Post, "/device/connect", ConnectBody(ConnectPayload(deviceId, form.connectMethod, form.whatsappNumber)));
      match connected {
        case Err(e) =>
          Reject(e);
          outcome := ConnectRejected;
        case Ok(result) =>
          if !result.isConnected {
            if form.connectMethod == "code" {
              view := view.(connectDeviceCode := result.pairingCode, showConnectCodeModal := true);
              outcome := ShowingPairingCode(result.pairingCode);
            } else if form.connectMethod == "qr" {
              view := view.(connectDeviceQR := result.qrString, showConnectQRCodeModal := true);
              outcome := ShowingQr(result.qrString);
            } else {
              outcome := NotConnected;
            }
          } else {
            FetchDevices(refreshed);
            view := view.(showDeviceModal := false);
            outcome := DeviceLinked;
          }
      }
    }

    /** The part of `handleAddDevice` after `POST /device` was sent. */
    method ConnectCreated(form: NewDeviceForm, created: Response<CreatedDevice>,
                          connected: Response<ConnectResult>, refreshed: Response<seq<Device>>)
      returns (outcome: AddDeviceOutcome)
      modifies this`requests, this`credentials, this`view
      ensures outcome == CreateOutcome(form, created, connected)
      ensures State() == AfterCreate(old(State()), form, created, connected, refreshed, base64)
    {
      match created {
        case Err(e) =>
          Reject(e);
          outcome := CreateRejected;
        case Ok(d) =>
          if Present(d.id) {
            outcome := ConnectDevice(form, d.id.value, connected, refreshed);
          } else {
            outcome := NoDeviceId;
          }
      }
    }

    /** The `try` block of `handleAddDevice`. */
    method AttemptAddDevice(form: NewDeviceForm, created: Response<CreatedDevice>,
                            connected: Response<ConnectResult>, refreshed: Response<seq<Device>>)
      returns (outcome: AddDeviceOutcome)
      modifies this`requests, this`credentials, this`view
      ensures outcome == AddDeviceDecision(form, created, connected)
      ensures State() == Attempted(old(State()), form, created, connected, refreshed, base64)
    {
      if form.deviceId == AddNewDevice {
        Send(Post, "/device", CreateDeviceBody(form.name));
        outcome := ConnectCreated(form, created, connected, refreshed);
      } else {
        outcome := ConnectDevice(form, form.deviceId, connected, refreshed);
      }
    }

    /** `handleAddDevice`. */
    method AddDevice(form: NewDeviceForm, created: Response<CreatedDevice>,
                     connected: Response<ConnectResult>, refreshed: Response<seq<Device>>)
      returns (outcome: AddDeviceOutcome)
      modifies this`requests, this`credentials, this`view
      ensures outcome == if old(view.isLoading) then Busy else AddDeviceDecision(form, created, connected)
      ensures State() == AddedDevice(old(State()), form, created, connected, refreshed, base64)
    {
      if view.isLoading {
        return Busy;
      }
      view := view.(isLoading := true);
      outcome := AttemptAddDevice(form, created, connected, refreshed);
      view := view.(isLoading := false);
    }
  }
}
