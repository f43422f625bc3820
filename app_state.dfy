/**
 * `AppState`, the app-wide sign-in state, and `AuthState`'s equality. The
 * profile sync that runs in a `Task` is recorded as a request (whether it
 * bootstraps first) and completed by `ProfileSyncFinished`; the hosted
 * logout's outcome is ignored by the app and is only counted here.
 */
module TemplateApp {
  import opened Wrappers
  import opened Auth
  import opened Manifest
  import UserProfiles
  import SessionStorage

  datatype AuthState = SignedOut | SigningIn | SignedIn(session: AuthSession)

  /** The identity a signed-in state compares by: the subject, or the identity token when the subject is empty. */
  function Identifier(s: AuthSession): string {
    if s.user.subject == [] then s.idToken else s.user.subject
  }

  /** `AuthState ==`: same case, and for signed-in states the same identifier. */
  predicate Equals(a: AuthState, b: AuthState) {
    match (a, b)
    case (SignedOut, SignedOut) => true
    case (SigningIn, SigningIn) => true
    case (SignedIn(x), SignedIn(y)) => Identifier(x) == Identifier(y)
    case _ => false
  }

  /** Equality is an equivalence relation. */
  lemma EqualsIsEquivalence(a: AuthState, b: AuthState, c: AuthState)
    ensures Equals(a, a)
    ensures Equals(a, b) ==> Equals(b, a)
    ensures Equals(a, b) && Equals(b, c) ==> Equals(a, c)
  {
  }

  /** States of different cases are never equal, and two sessions are equal exactly when their identifiers are. */
  lemma EqualsByCase(a: AuthState, b: AuthState)
    ensures a.SignedIn? && b.SignedIn? ==> (Equals(a, b) <==> Identifier(a.session) == Identifier(b.session))
    ensures (a.SignedOut? != b.SignedOut? || a.SigningIn? != b.SigningIn?) ==> !Equals(a, b)
  {
  }

  /** Tokens refreshed under the same subject leave the signed-in state equal. */
  lemma RefreshedSessionEqual(s: AuthSession, t: AuthSession)
    requires s.user.subject == t.user.subject && s.user.subject != []
    ensures Equals(SignedIn(s), SignedIn(t))
  {
  }

  class AppState {
    var manifest: AppManifest
    var authState: AuthState
    var userProfile: Option<UserProfiles.UserProfile>
    var latestLoginSuccessID: Option<nat>
    var shouldShowWelcome: bool
    /** `AuthSessionStorage.shared`. */
    const storage: SessionStorage.AuthSessionStorage
    /** The profile syncs started so far, each marked with whether it bootstraps first. */
    var profileSyncs: seq<bool>
    /** How many hosted-UI logouts were attempted. */
    var remoteLogouts: nat

    /**
     * `init`: the bundled manifest, or the placeholder when it does not load;
     * then the stored session is restored when it has not expired at `now`.
     */
    constructor(storage: SessionStorage.AuthSessionStorage, bundled: Option<AppManifest>, now: int, freshId: nat)
      ensures this.storage == storage && manifest == bundled.GetOr(Placeholder)
      ensures userProfile == None && latestLoginSuccessID == None && remoteLogouts == 0
      ensures Restorable(storage.Load(freshId), now) ==>
        authState == SignedIn(storage.Load(freshId).value) && !shouldShowWelcome && profileSyncs == [false]
      ensures !Restorable(storage.Load(freshId), now) ==>
        authState == SignedOut && shouldShowWelcome && profileSyncs == []
    {
      this.storage := storage;
      manifest := bundled.GetOr(Placeholder);
      userProfile := None;
      latestLoginSuccessID := None;
      remoteLogouts := 0;
      var loaded := storage.Load(freshId);
      if Restorable(loaded, now) {
        authState := SignedIn(loaded.value);
        shouldShowWelcome := false;
        profileSyncs := [false];
      } else {
        authState := SignedOut;
        shouldShowWelcome := true;
        profileSyncs := [];
      }
    }

    /** The welcome screen is up exactly when it has not been dismissed and nobody is signed in or signing in. */
    predicate ShowsWelcome()
      reads this
    {
      shouldShowWelcome && authState.SignedOut?
    }

    /**
     * `handleLoginSuccess`: persists the session, whether or not that works,
     * signs in, hides the welcome, issues a fresh success id and starts a
     * bootstrapping profile sync.
     */
    method HandleLoginSuccess(session: AuthSession, encodes: bool, newLoginID: nat)
      modifies this`authState, this`shouldShowWelcome, this`latestLoginSuccessID, this`profileSyncs, storage`slot
      ensures authState == SignedIn(session) && !shouldShowWelcome && latestLoginSuccessID == Some(newLoginID)
      ensures profileSyncs == old(profileSyncs) + [true]
      ensures encodes ==> storage.slot == Some(SessionStorage.Encoded(session))
      ensures !encodes ==> storage.slot == old(storage.slot)
      ensures !ShowsWelcome()
    {
      var _ := storage.Store(session, encodes);
      authState := SignedIn(session);
      shouldShowWelcome := false;
      latestLoginSuccessID := Some(newLoginID);
      profileSyncs := profileSyncs + [true];
    }

    /**
     * Starts a profile sync only when no profile is loaded; the sync itself
     * does nothing unless someone is signed in.
     */
    method RefreshProfileIfNeeded()
      modifies this`profileSyncs
      ensures userProfile.None? && authState.SignedIn? ==> profileSyncs == old(profileSyncs) + [false]
      ensures !(userProfile.None? && authState.SignedIn?) ==> profileSyncs == old(profileSyncs)
    {
      if userProfile.None? && authState.SignedIn? {
        profileSyncs := profileSyncs + [false];
      }
    }

    /**
     * A started sync's completion: a fetched profile is kept, even when the
     * user signed out while it ran; a failed sync changes nothing.
     */
    method ProfileSyncFinished(fetched: Option<UserProfiles.UserProfile>)
      modifies this`userProfile
      ensures fetched.Some? ==> userProfile == fetched
      ensures fetched.None? ==> userProfile == old(userProfile)
    {
      if fetched.Some? {
        userProfile := fetched;
      }
    }

    /** `performLogout`: a signed-in user is also logged out of the hosted UI; every path ends signed out. */
    method PerformLogout()
      modifies this`authState, this`shouldShowWelcome, this`userProfile, this`remoteLogouts, storage`slot
      ensures remoteLogouts == old(remoteLogouts) + (if old(authState).SignedIn? then 1 else 0)
      ensures storage.slot == None && userProfile == None && authState == SignedOut && shouldShowWelcome
      ensures ShowsWelcome()
    {
      if authState.SignedIn? {
        remoteLogouts := remoteLogouts + 1;
      }
      storage.Clear();
      userProfile := None;
      authState := SignedOut;
      shouldShowWelcome := true;
    }

    method DismissWelcome()
      modifies this`shouldShowWelcome
      ensures !shouldShowWelcome && !ShowsWelcome()
    {
      shouldShowWelcome := false;
    }
  }

  /** A loaded session is restored when there is one and it has not expired. */
  predicate Restorable(loaded: Option<AuthSession>, now: int) {
    loaded.Some? && !loaded.value.IsExpired(now)
  }

  /** A session stored before launch is restored exactly until its deadline. */
  lemma RestoreUntilDeadline(s: AuthSession, freshId: nat, now: int)
    ensures Restorable(Some(s.(id := freshId)), now) <==> now < s.expiresAt
  {
  }
}
