/**
 * `PushManager`: notification permission, the APNs device token and
 * deep-link routing. The notification centre's callbacks arrive as method
 * arguments; the route handler's calls are recorded in order.
 */
module Push {
  import opened Wrappers
  import opened Bytes

  datatype AuthorizationStatus = NotDetermined | Denied | Authorized | Provisional | Ephemeral

  /** How the permission request ended: an answer, or a thrown error's description. */
  datatype PermissionAnswer = Granted | Refused | Threw(description: string)

  /** A notification payload value: a string, or anything else. */
  datatype PayloadValue = Text(s: string) | Other

  class PushManager {
    var authorizationStatus: AuthorizationStatus
    var deviceToken: Option<string>
    var lastError: Option<string>
    var deepLinkEnabled: bool
    var hasRouteHandler: bool
    /** The strings handed to the route handler so far. */
    var routed: seq<string>
    /** How many times registration with APNs was requested. */
    var registrations: nat

    constructor()
      ensures authorizationStatus == NotDetermined && deviceToken == None && lastError == None
      ensures !deepLinkEnabled && !hasRouteHandler && routed == [] && registrations == 0
    {
      authorizationStatus := NotDetermined;
      deviceToken := None;
      lastError := None;
      deepLinkEnabled := false;
      hasRouteHandler := false;
      routed := [];
      registrations := 0;
    }

    /** `configure`, followed by the settings read that refreshes the status. */
    method Configure(enableDeepLinks: bool, routeHandler: bool, currentStatus: AuthorizationStatus)
      modifies this`deepLinkEnabled, this`hasRouteHandler, this`authorizationStatus
      ensures deepLinkEnabled == enableDeepLinks && hasRouteHandler == routeHandler
      ensures authorizationStatus == currentStatus
    {
      deepLinkEnabled := enableDeepLinks;
      hasRouteHandler := routeHandler;
      authorizationStatus := currentStatus;
    }

    /** Asks for permission; a grant registers for remote notifications. */
    method RequestAuthorizationAndRegister(answer: PermissionAnswer)
      modifies this`authorizationStatus, this`lastError, this`registrations
      ensures answer == Granted ==> authorizationStatus == Authorized && registrations == old(registrations) + 1
      ensures answer == Refused ==> authorizationStatus == Denied && registrations == old(registrations)
      ensures !answer.Threw? ==> lastError == old(lastError)
      ensures answer.Threw? ==>
        lastError == Some(answer.description) && authorizationStatus == old(authorizationStatus) && registrations == old(registrations)
    {
      match answer
      case Threw(d) =>
        lastError := Some(d);
      case Granted =>
        authorizationStatus := Authorized;
        registrations := registrations + 1;
      case Refused =>
        authorizationStatus := Denied;
    }

    /** Stores the token as lowercase hex and clears the last error. */
    method HandleDeviceToken(data: seq<Byte>)
      modifies this`deviceToken, this`lastError
      ensures deviceToken == Some(HexEncode(data)) && lastError == None
    {
      deviceToken := Some(HexEncode(data));
      lastError := None;
    }

    method HandleRegistrationError(description: string)
      modifies this`lastError
      ensures lastError == Some(description)
    {
      lastError := Some(description);
    }

    /** Hands a string `route` to the route handler, when deep links are on and a handler is set. */
    method HandleRemoteNotification(userInfo: map<string, PayloadValue>)
      modifies this`routed
      ensures RouteOf(deepLinkEnabled, hasRouteHandler, userInfo).Some? ==>
        routed == old(routed) + [RouteOf(deepLinkEnabled, hasRouteHandler, userInfo).value]
      ensures RouteOf(deepLinkEnabled, hasRouteHandler, userInfo).None? ==> routed == old(routed)
    {
      var route := RouteOf(deepLinkEnabled, hasRouteHandler, userInfo);
      if route.Some? {
        routed := routed + [route.value];
      }
    }
  }

  /** The string a notification routes to, if any. */
  function RouteOf(deepLinkEnabled: bool, hasRouteHandler: bool, userInfo: map<string, PayloadValue>): (r: Option<string>)
    ensures r.Some? <==> deepLinkEnabled && hasRouteHandler && "route" in userInfo && userInfo["route"].Text?
    ensures r.Some? ==> r.value == userInfo["route"].s
  {
    if !deepLinkEnabled then None
    else if "route" in userInfo && userInfo["route"].Text? && hasRouteHandler then Some(userInfo["route"].s)
    else None
  }

  /** The device token has exactly two lowercase hex digits per byte, and reads back as the bytes. */
  lemma DeviceTokenSpelling(data: seq<Byte>)
    ensures |HexEncode(data)| == 2 * |data|
    ensures HexDecode(HexEncode(data)) == Some(data)
  {
    HexRoundTrip(data);
  }
}
