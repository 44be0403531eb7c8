/**
 * Session and profile resolution (src/App.jsx). The root component holds the signed-in
 * user, the resolved profile and a loading flag. Each identity change sets the user, looks
 * up `users/{uid}` and only then clears the loading flag; a pure routing decision picks the
 * view from the three fields.
 */
module App {
  import opened Firestore
  import CreateProfile

  /** What the root component renders. */
  datatype View =
    | LoadingSpinner
    | AuthView
    | CreateProfileView
    | PatientPortalView
    | UnknownRoleMessage

  /** The profile stored for a user who still has to onboard. */
  const NeedsProfileDoc: Doc := map["needsProfile" := Bool(true)]

  /** `userProfile?.needsProfile` is truthy. */
  predicate NeedsProfile(profile: Option<Doc>)
    ensures NeedsProfile(profile) ==> profile.Some? && "needsProfile" in profile.value
  {
    Truthy(Field(profile, "needsProfile"))
  }

  /** `userProfile?.role === 'patient'`. */
  predicate IsPatient(profile: Option<Doc>)
    ensures IsPatient(profile) <==>
      profile.Some? && "role" in profile.value && profile.value["role"] == Str("patient")
  {
    Field(profile, "role") == Some(Str("patient"))
  }

  /**
   * The profile `checkUserProfile` settles on when its lookup succeeds: nothing for no user,
   * the stored document when `users/{uid}` exists, the needs-profile marker otherwise.
   */
  function ResolveProfile(authUser: Option<User>, store: Store): (r: Option<Doc>)
    ensures authUser.None? ==> r.None?
    ensures authUser.Some? && CreateProfile.UsersPath(authUser.value.uid) in store ==>
      r == Some(store[CreateProfile.UsersPath(authUser.value.uid)])
    ensures authUser.Some? && CreateProfile.UsersPath(authUser.value.uid) !in store ==>
      r == Some(NeedsProfileDoc)
  {
    match authUser
    case None => None
    case Some(u) =>
      match Get(store, CreateProfile.UsersPath(u.uid))
      case Some(d) => Some(d)
      case None => Some(NeedsProfileDoc)
  }

  /** `renderContent`: no user, then needs-profile, then role, then the fallback message. */
  function RenderContent(user: Option<User>, profile: Option<Doc>): (v: View)
    ensures v != LoadingSpinner
    ensures v == AuthView <==> user.None?
    ensures v == PatientPortalView ==> IsPatient(profile) && !NeedsProfile(profile)
  {
    if user.Some? then
      if NeedsProfile(profile) then CreateProfileView
      else if IsPatient(profile) then PatientPortalView
      else UnknownRoleMessage
    else AuthView
  }

  /** What the component renders: the spinner while loading, the routed view otherwise. */
  function Render(loading: bool, user: Option<User>, profile: Option<Doc>): (v: View)
    ensures v == LoadingSpinner <==> loading
  {
    if loading then LoadingSpinner else RenderContent(user, profile)
  }

  /** A flagged profile is sent to onboarding even when it also names the patient role. */
  lemma NeedsProfileBeforeRole(u: User, profile: Doc)
    requires "needsProfile" in profile && Truthy(Some(profile["needsProfile"]))
    ensures RenderContent(Some(u), Some(profile)) == CreateProfileView
  {
  }

  /** A signed-in user with no `users/{uid}` document is routed to onboarding once resolved. */
  lemma MissingProfileRoutesToOnboarding(u: User, store: Store)
    requires CreateProfile.UsersPath(u.uid) !in store
    ensures RenderContent(Some(u), ResolveProfile(Some(u), store)) == CreateProfileView
  {
  }

  /** Signing out resolves to no profile and the sign-in view. */
  lemma SignedOutRoutesToAuth(store: Store)
    ensures ResolveProfile(None, store) == None
    ensures RenderContent(None, ResolveProfile(None, store)) == AuthView
  {
  }

  /**
   * A stored profile is routed by its own fields: onboarding when it is flagged, the portal
   * for the patient role, the support message for anything else.
   */
  lemma StoredProfileRouting(u: User, store: Store)
    requires CreateProfile.UsersPath(u.uid) in store
    ensures var d := store[CreateProfile.UsersPath(u.uid)];
      RenderContent(Some(u), ResolveProfile(Some(u), store)) ==
        if "needsProfile" in d && Truthy(Some(d["needsProfile"])) then CreateProfileView
        else if "role" in d && d["role"] == Str("patient") then PatientPortalView
        else UnknownRoleMessage
  {
  }

  /**
   * Between `setUser` and the end of the lookup the profile is still the previous one; a
   * later sign-in, after a sign-out cleared the profile, is routed to the support message
   * until its lookup completes (the loading flag is only raised for the first event).
   */
  lemma SignInAfterSignOutShowsMessageWhileResolving(u: User)
    ensures Render(false, Some(u), None) == UnknownRoleMessage
  {
  }

  /**
   * Onboarding completes the loop: once `users/{uid}` holds the document the form writes,
   * the next resolution of that user routes to the patient portal.
   */
  lemma OnboardedUserRoutesToPortal(u: User, store: Store, name: string, medboxId: string)
    requires Get(store, CreateProfile.UsersPath(u.uid)) == Some(CreateProfile.UserDoc(name, medboxId))
    ensures ResolveProfile(Some(u), store) == Some(CreateProfile.UserDoc(name, medboxId))
    ensures RenderContent(Some(u), ResolveProfile(Some(u), store)) == PatientPortalView
  {
    assert "needsProfile" !in CreateProfile.UserDoc(name, medboxId);
  }

  /** The root component's state. */
  class App {
    var user: Option<User>
    var userProfile: Option<Doc>
    var loading: bool

    constructor ()
      ensures user.None? && userProfile.None? && loading
    {
      user, userProfile, loading := None, None, true;
    }

    /** What the component currently renders. */
    function CurrentView(): View
      reads this
    {
      Render(loading, user, userProfile)
    }

    /**
     * `checkUserProfile`: no user clears the profile without touching the store; otherwise
     * one read of `users/{uid}`. A failed read rejects (`err` is its message) and leaves the
     * profile as it was.
     */
    method CheckUserProfile(db: Db, authUser: Option<User>, fault: Option<string>) returns (err: Option<string>)
      modifies this`userProfile, db`log
      ensures authUser.None? ==> err.None? && userProfile.None? && db.log == old(db.log)
      ensures authUser.Some? ==> db.log == old(db.log) + [Read(CreateProfile.UsersPath(authUser.value.uid))]
      ensures authUser.Some? && fault.Some? ==> err == fault && userProfile == old(userProfile)
      ensures fault.None? ==> err.None? && userProfile == ResolveProfile(authUser, db.docs)
    {
      err := None;
      if authUser.None? {
        userProfile := None;
        return;
      }
      var userDoc := db.GetDoc(CreateProfile.UsersPath(authUser.value.uid), fault);
      if userDoc.Failure? {
        err := Some(userDoc.error);
        return;
      }
      match userDoc.value
      case Some(d) =>
        userProfile := Some(d);
      case None =>
        userProfile := Some(NeedsProfileDoc);
    }

    /**
     * The `onAuthStateChanged` handler, run to completion: set the user, check the profile,
     * then clear the loading flag. A rejected lookup skips the last step.
     */
    method OnAuthStateChanged(db: Db, authUser: Option<User>, fault: Option<string>)
      modifies this, db`log
      ensures user == authUser
      ensures authUser.Some? ==> db.log == old(db.log) + [Read(CreateProfile.UsersPath(authUser.value.uid))]
      ensures authUser.None? ==> db.log == old(db.log) && userProfile.None? && !loading
      ensures authUser.Some? && fault.Some? ==> userProfile == old(userProfile) && loading == old(loading)
      ensures fault.None? ==> userProfile == ResolveProfile(authUser, db.docs) && !loading
    {
      user := authUser;
      var err := CheckUserProfile(db, authUser, fault);
      if err.None? {
        loading := false;
      }
    }

    /**
     * The `onProfileCreated` callback: the profile check again, for the user `u` the arrow
     * function captured when the form was rendered. The profile it settles on is that user's,
     * whatever `user` holds by the time the callback runs.
     */
    method OnProfileCreated(db: Db, u: User, fault: Option<string>)
      modifies this`userProfile, db`log
      ensures db.log == old(db.log) + [Read(CreateProfile.UsersPath(u.uid))]
      ensures fault.Some? ==> userProfile == old(userProfile)
      ensures fault.None? ==> userProfile == ResolveProfile(Some(u), db.docs)
    {
      var _ := CheckUserProfile(db, Some(u), fault);
    }

    /**
     * A submission of the onboarding form rendered for the current user, followed by the
     * callback it triggers. When validation and both writes succeed and the re-check reads
     * the store, the view becomes the patient portal.
     */
    method SubmitOnboarding(db: Db, form: CreateProfile.CreateProfile, pinRandom: string, base36: string,
                            usersFault: Option<string>, patientsFault: Option<string>, readFault: Option<string>)
      requires user == Some(form.user) && !loading
      modifies this`userProfile, form`error, db
      ensures CreateProfile.ValidatePin(form.pin, form.confirmPin).Some? ==>
        db.docs == old(db.docs) && db.log == old(db.log) && userProfile == old(userProfile)
      ensures (&& CreateProfile.ValidatePin(form.pin, form.confirmPin).None?
               && usersFault.None? && patientsFault.None? && readFault.None?) ==>
        CurrentView() == PatientPortalView
    {
      var calledBack := form.HandleSubmit(db, true, pinRandom, base36, usersFault, patientsFault);
      if calledBack {
        OnProfileCreated(db, form.user, readFault);
        if CreateProfile.ValidatePin(form.pin, form.confirmPin).None? && usersFault.None? && patientsFault.None? && readFault.None? {
          var medboxId := CreateProfile.MedboxId(base36);
          OnboardedUserRoutesToPortal(form.user, db.docs, form.name, medboxId);
        }
      }
    }
  }
}
