/** The App component of App.tsx as an object: its state fields are updated
    in place by one method per handler or timer callback, in the order the
    handlers call their setters. Each method is proved to perform exactly the
    transition of the matching function in AppSpec. */
module AppComponent {
  import opened Wrappers
  import opened Types
  import opened AppSpec

  class App {
    var appState: AppState
    var userType: Option<UserType>
    var userProfile: UserProfile
    var recommendations: seq<CareerRecommendation>
    var error: Option<string>
    var loadingMessageIndex: nat
    var textFadeClass: Fade
    var currentUser: Option<User>
    var appData: Option<AppData>
    var dataError: Option<string>
    // the loading-message effect has a scheduled timeout that has neither fired nor been cleared
    var advancePending: bool

    /** The fields as one value. */
    function State(): ComponentState
      reads this
    {
      ComponentState(appState, userType, userProfile, recommendations, error,
                     loadingMessageIndex, textFadeClass, currentUser, appData, dataError,
                     advancePending)
    }

    ghost predicate Valid()
      reads this
    {
      Inv(State())
    }

    /** Mounting the component. */
    constructor ()
      ensures Valid() && State() == Initial
    {
      appState := UserTypeSelection;
      userType := None;
      userProfile := InitialState;
      recommendations := [];
      error := None;
      loadingMessageIndex := 0;
      textFadeClass := Opacity100;
      currentUser := None;
      appData := None;
      dataError := None;
      advancePending := false;
    }

    /** setAppState followed by the effect that depends on appState. */
    method SetAppState(next: AppState)
      modifies this
      ensures State() == Commit(old(State()), next)
    {
      if next != appState {
        advancePending := false;
        if next == Generating {
          loadingMessageIndex := 0;
          textFadeClass := Opacity100;
        }
      }
      appState := next;
    }

    method HandleUserTypeSelect(t: UserType)
      requires Valid()
      modifies this
      ensures Valid() && State() == OnUserTypeSelect(old(State()), t)
    {
      userType := Some(t);
      SetAppState(SignIn);
    }

    /** handleSignUp once the sign-up service has settled. */
    method HandleSignUp(signUp: Outcome)
      requires Valid()
      modifies this
      ensures Valid() && State() == OnSignUp(old(State()), signUp)
    {
      if signUp.Pass? {
        SetAppState(SignIn);
      }
    }

    /** handleSignIn once the sign-in service has settled. */
    method HandleSignIn(signIn: Result<User>)
      requires Valid()
      modifies this
      ensures Valid() && State() == OnSignIn(old(State()), signIn)
    {
      if signIn.Success? {
        var user := signIn.value;
        currentUser := Some(user);
        userProfile := userProfile.(name := user.name, email := user.email);
        SetAppState(ProfileBuilding);
      }
    }

    /** `setUserProfile` as called by the profile form. */
    method SetUserProfile(profile: UserProfile)
      requires Valid()
      modifies this
      ensures Valid() && State() == OnProfileEdit(old(State()), profile)
    {
      userProfile := profile;
    }

    method HandleProfileComplete(profile: UserProfile)
      requires Valid()
      modifies this
      ensures Valid() && State() == OnProfileComplete(old(State()), profile)
    {
      userProfile := profile;
      if userType == Some(InEducation) {
        SetAppState(ResumeBuilder);
      } else {
        HandleFormSubmit();
      }
    }

    /** The part of handleFormSubmit that runs before the recommendation
        service is awaited. */
    method HandleFormSubmit()
      requires Valid()
      modifies this
      ensures Valid() && State() == OnFormSubmit(old(State()))
    {
      if appData.None? {
        return;
      }
      SetAppState(Generating);
      error := None;
    }

    /** The rest of handleFormSubmit, once the recommendation service has
        settled; it applies to whatever state the component is in by then. */
    method CompleteFormSubmit(result: Result<seq<CareerRecommendation>>)
      requires Valid()
      modifies this
      ensures Valid() && State() == OnRecommendations(old(State()), result)
    {
      match result
      case Success(recs) =>
        recommendations := recs;
        SetAppState(Results);
      case Failure(message) =>
        error := Some(MessageOr(message, GenerationFallback));
        SetAppState(ProfileBuilding);
    }

    method HandleResumeProceed(updated: UserProfile)
      requires Valid()
      modifies this
      ensures Valid() && State() == OnResumeProceed(old(State()), updated)
    {
      userProfile := updated;
      HandleFormSubmit();
    }

    method HandleReset()
      requires Valid()
      modifies this
      ensures Valid() && State() == OnReset(old(State()))
    {
      userProfile := InitialState;
      userType := None;
      recommendations := [];
      error := None;
      currentUser := None;
      SetAppState(UserTypeSelection);
    }

    /** The interval callback of the loading-message effect. */
    method FadeOut()
      requires Valid()
      modifies this
      ensures Valid() && State() == OnFadeOut(old(State()))
    {
      if appState == Generating {
        textFadeClass := Opacity0;
        advancePending := true;
      }
    }

    /** The timeout callback scheduled by FadeOut. */
    method Advance()
      requires Valid()
      modifies this
      ensures Valid() && State() == OnAdvance(old(State()))
    {
      if appState == Generating && advancePending {
        loadingMessageIndex := NextMessageIndex(loadingMessageIndex);
        textFadeClass := Opacity100;
        advancePending := false;
      }
    }

    /** fetchAppData once both fetches (and the parsing of their bodies) have
        settled. The effect that starts it runs only at mount. */
    method CompleteBoot(fetched: Result<Responses>)
      requires Valid() && appData.None? && dataError.None?
      modifies this
      ensures Valid() && State() == OnBoot(old(State()), fetched)
    {
      match BootOutcome(fetched)
      case Success(data) => appData := Some(data);
      case Failure(message) => dataError := Some(message);
    }
  }
}
