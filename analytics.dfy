/**
 * `AnalyticsEvent` and `AnalyticsManager`. The Combine subscriptions become
 * two methods called with each emitted value; each tracked event is recorded
 * as the request `send` would post. The timestamp and the device description
 * are inputs.
 */
module Analytics {
  import opened Wrappers
  import opened Manifest
  import opened TemplateApp

  datatype AnalyticsEvent = AppOpen | ScreenView(screen: string) | ButtonTap(button: string) | Error(text: string) {
    function Type(): string {
      match this
      case AppOpen => "appOpen"
      case ScreenView(_) => "screenView"
      case ButtonTap(_) => "buttonTap"
      case Error(_) => "error"
    }

    function Name(): (r: Option<string>)
      ensures r.None? <==> Error?
    {
      match this
      case AppOpen => Some("app_open")
      case ScreenView(n) => Some(n)
      case ButtonTap(n) => Some(n)
      case Error(_) => None
    }

    function Message(): (r: Option<string>)
      ensures r.Some? <==> Error?
    {
      match this
      case Error(m) => Some(m)
      case _ => None
    }
  }

  /** Events of different kinds never share a type; screen views and taps carry their name, errors their message. */
  lemma EventFields(e: AnalyticsEvent, f: AnalyticsEvent)
    ensures e.Type() == f.Type() <==>
      ((e.AppOpen? && f.AppOpen?) || (e.ScreenView? && f.ScreenView?) || (e.ButtonTap? && f.ButtonTap?) || (e.Error? && f.Error?))
    ensures e.ScreenView? ==> e.Name() == Some(e.screen)
    ensures e.ButtonTap? ==> e.Name() == Some(e.button)
    ensures e.Error? ==> e.Message() == Some(e.text) && e.Name() == None
  {
  }

  datatype DeviceInfo = DeviceInfo(model: string, os: string, appVersion: string)

  datatype AnalyticsPayload = AnalyticsPayload(
    appId: string, environment: string, eventType: string,
    name: Option<string>, message: Option<string>, timestamp: string, device: DeviceInfo)

  /** A POST to `v1/analytics`: its body and its header fields. */
  datatype AnalyticsRequest = AnalyticsRequest(path: string, payload: AnalyticsPayload, headers: seq<(string, string)>)

  /** JSON, the app id, and the bearer token only when there is one. */
  function Headers(appId: string, accessToken: Option<string>): (r: seq<(string, string)>)
    ensures ("X-App-Id", appId) in r && ("Content-Type", "application/json") in r
    ensures (exists v :: ("Authorization", v) in r) <==> accessToken.Some?
    ensures accessToken.Some? ==> ("Authorization", "Bearer " + accessToken.value) in r
  {
    var base := [("Content-Type", "application/json"), ("X-App-Id", appId)];
    if accessToken.Some? then base + [("Authorization", "Bearer " + accessToken.value)]
    else
      assert forall v :: ("Authorization", v) !in base;
      base
  }

  function PayloadFor(manifest: AppManifest, event: AnalyticsEvent, timestamp: string, device: DeviceInfo): AnalyticsPayload {
    AnalyticsPayload(manifest.appId, manifest.activeEnvironment.RawValue(), event.Type(), event.Name(), event.Message(), timestamp, device)
  }

  /**
   * A payload carries the manifest's app id and environment, and its type,
   * name and message tell the event apart: two events with the same payload
   * are the same event.
   */
  lemma PayloadIdentifiesEvent(manifest: AppManifest, e: AnalyticsEvent, f: AnalyticsEvent, timestamp: string, device: DeviceInfo)
    ensures PayloadFor(manifest, e, timestamp, device).appId == manifest.appId
    ensures PayloadFor(manifest, e, timestamp, device).environment == manifest.activeEnvironment.RawValue()
    ensures PayloadFor(manifest, e, timestamp, device) == PayloadFor(manifest, f, timestamp, device) ==> e == f
  {
    if PayloadFor(manifest, e, timestamp, device) == PayloadFor(manifest, f, timestamp, device) {
      EventFields(e, f);
    }
  }

  class AnalyticsManager {
    var manifest: Option<AppManifest>
    var accessToken: Option<string>
    var hasSentAppOpen: bool
    /** The requests sent so far, in order. */
    var sent: seq<AnalyticsRequest>

    constructor()
      ensures manifest == None && accessToken == None && !hasSentAppOpen && sent == []
    {
      manifest := None;
      accessToken := None;
      hasSentAppOpen := false;
      sent := [];
    }

    /** `track`: nothing without a manifest; otherwise one request with the event's fields. */
    method Track(event: AnalyticsEvent, timestamp: string, device: DeviceInfo)
      modifies this`sent
      ensures manifest.None? ==> sent == old(sent)
      ensures manifest.Some? ==>
        sent == old(sent) + [AnalyticsRequest("/v1/analytics", PayloadFor(manifest.value, event, timestamp, device),
                                              Headers(manifest.value.appId, accessToken))]
    {
      if manifest.None? {
        return;
      }
      var m := manifest.value;
      sent := sent + [AnalyticsRequest("/v1/analytics", PayloadFor(m, event, timestamp, device), Headers(m.appId, accessToken))];
    }

    /** Each manifest the app state publishes; only the first one is followed by an app-open event. */
    method ManifestEmitted(m: AppManifest, timestamp: string, device: DeviceInfo)
      modifies this`manifest, this`hasSentAppOpen, this`sent
      ensures manifest == Some(m) && hasSentAppOpen
      ensures old(hasSentAppOpen) ==> sent == old(sent)
      ensures !old(hasSentAppOpen) ==>
        sent == old(sent) + [AnalyticsRequest("/v1/analytics", PayloadFor(m, AppOpen, timestamp, device), Headers(m.appId, accessToken))]
    {
      manifest := Some(m);
      if !hasSentAppOpen {
        hasSentAppOpen := true;
        Track(AppOpen, timestamp, device);
      }
    }

    /** Each sign-in state the app state publishes: the token is kept exactly while signed in. */
    method AuthStateEmitted(state: AuthState)
      modifies this`accessToken
      ensures accessToken.Some? <==> state.SignedIn?
      ensures state.SignedIn? ==> accessToken == Some(state.session.accessToken)
    {
      if state.SignedIn? {
        accessToken := Some(state.session.accessToken);
      } else {
        accessToken := None;
      }
    }
  }
}
