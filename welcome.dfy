/**
 * `WelcomeView`'s logic: the hosted sign-in buttons, the subtitle and the
 * legal links. The sign-in runs in a `Task`; here it is started by
 * `StartLogin` and completed by `LoginFinished` with its result.
 */
module Welcome {
  import opened Wrappers
  import opened Manifest
  import opened Auth
  import opened HostedUI
  import opened TemplateApp
  import SessionStorage

  const SubtitlePlaceholder: string := "Your app subtitle goes here"

  /** The subtitle: the manifest's display name, or the placeholder text when that is empty. */
  function Subtitle(manifest: AppManifest): (r: string)
    ensures manifest.displayName != [] ==> r == manifest.displayName
    ensures manifest.displayName == [] ==> r == SubtitlePlaceholder
    ensures r != []
  {
    if manifest.displayName != [] then manifest.displayName else SubtitlePlaceholder
  }

  datatype LegalLink = Terms | Privacy {
    /** The link's title, which is also its `id`. */
    function Title(): (r: string)
      ensures r != []
    {
      match this
      case Terms => "Terms of Service"
      case Privacy => "Privacy Policy"
    }

    /** The link's URL in the manifest's legal section, if it has one. */
    function Url(manifest: AppManifest): (r: Option<string>)
      ensures manifest.legal.None? ==> r.None?
      ensures manifest.legal.Some? && this == Terms ==> r == manifest.legal.value.termsUrl
      ensures manifest.legal.Some? && this == Privacy ==> r == manifest.legal.value.privacyUrl
    {
      if manifest.legal.None? then None
      else match this
        case Terms => manifest.legal.value.termsUrl
        case Privacy => manifest.legal.value.privacyUrl
    }
  }

  /** The two links have different titles, so their ids differ. */
  lemma LegalLinkIdsDistinct()
    ensures Terms.Title() != Privacy.Title()
  {
  }

  /** Each link reads only its own field: changing the other URL leaves it alone. */
  lemma LegalLinksIndependent(manifest: AppManifest, links: LegalLinks, url: Option<string>)
    ensures Terms.Url(manifest.(legal := Some(links.(privacyUrl := url)))) == Terms.Url(manifest.(legal := Some(links)))
    ensures Privacy.Url(manifest.(legal := Some(links.(termsUrl := url)))) == Privacy.Url(manifest.(legal := Some(links)))
  {
  }

  class WelcomeState {
    const appState: AppState
    var isAuthenticating: bool
    var currentProvider: Option<Provider>
    var activeLegalLink: Option<LegalLink>
    var showMoreOptions: bool

    constructor(appState: AppState)
      ensures this.appState == appState
      ensures !isAuthenticating && currentProvider == None && activeLegalLink == None && !showMoreOptions
    {
      this.appState := appState;
      isAuthenticating := false;
      currentProvider := None;
      activeLegalLink := None;
      showMoreOptions := false;
    }

    /** A provider's button shows progress only while that provider's sign-in runs. */
    predicate IsLoading(provider: Provider)
      reads this
    {
      isAuthenticating && currentProvider == Some(provider)
    }

    /** `startLogin`: ignored unless signed out; otherwise marks the provider as authenticating. */
    method StartLogin(provider: Provider) returns (started: bool)
      modifies this`isAuthenticating, this`currentProvider
      ensures started <==> appState.authState.SignedOut?
      ensures started ==> isAuthenticating && currentProvider == Some(provider)
      ensures !started ==> isAuthenticating == old(isAuthenticating) && currentProvider == old(currentProvider)
    {
      if !appState.authState.SignedOut? {
        return false;
      }
      currentProvider := Some(provider);
      isAuthenticating := true;
      started := true;
    }

    /** The sign-in's result: a session is handed to `handleLoginSuccess`, a failure signs out; both reset the buttons. */
    method LoginFinished(result: Result<AuthSession, ControllerError>, encodes: bool, newLoginID: nat)
      modifies this`isAuthenticating, this`currentProvider
      modifies appState`authState, appState`shouldShowWelcome, appState`latestLoginSuccessID, appState`profileSyncs, appState.storage`slot
      ensures !isAuthenticating && currentProvider == None
      ensures result.Success? ==>
        && appState.authState == SignedIn(result.value) && !appState.shouldShowWelcome
        && appState.latestLoginSuccessID == Some(newLoginID)
        && appState.profileSyncs == old(appState.profileSyncs) + [true]
        && (encodes ==> appState.storage.slot == Some(SessionStorage.Encoded(result.value)))
        && (!encodes ==> appState.storage.slot == old(appState.storage.slot))
      ensures result.Failure? ==>
        && appState.authState == SignedOut && appState.storage.slot == old(appState.storage.slot)
        && appState.shouldShowWelcome == old(appState.shouldShowWelcome)
        && appState.latestLoginSuccessID == old(appState.latestLoginSuccessID)
        && appState.profileSyncs == old(appState.profileSyncs)
      ensures forall p :: !IsLoading(p)
    {
      if result.Success? {
        appState.HandleLoginSuccess(result.value, encodes, newLoginID);
      } else {
        appState.authState := SignedOut;
      }
      isAuthenticating := false;
      currentProvider := None;
    }

    /** `openLegalLink`: presents the link only when the manifest has its URL. */
    method OpenLegalLink(link: LegalLink)
      modifies this`activeLegalLink
      ensures link.Url(appState.manifest).Some? ==> activeLegalLink == Some(link)
      ensures link.Url(appState.manifest).None? ==> activeLegalLink == old(activeLegalLink)
    {
      if link.Url(appState.manifest).Some? {
        activeLegalLink := Some(link);
      }
    }

    method ToggleMoreOptions()
      modifies this`showMoreOptions
      ensures showMoreOptions == !old(showMoreOptions)
    {
      showMoreOptions := !showMoreOptions;
    }
  }

  /** At most one button shows progress at a time. */
  lemma OneButtonLoads(w: WelcomeState, p: Provider, q: Provider)
    requires w.IsLoading(p) && w.IsLoading(q)
    ensures p == q
  {
  }

  /** The placeholder manifest has neither legal link. */
  lemma PlaceholderHasNoLegalLinks()
    ensures Terms.Url(Placeholder).None? && Privacy.Url(Placeholder).None?
    ensures Subtitle(Placeholder) == "Template App"
  {
  }
}
