/** Properties of the App.tsx state machine over whole runs of events. */
module AppProperties {
  import opened Wrappers
  import opened Types
  import opened AppSpec

  /** Running two event sequences one after the other. */
  lemma {:induction false} RunAppend(s: ComponentState, a: seq<Event>, b: seq<Event>)
    ensures Run(s, a + b) == Run(Run(s, a), b)
    decreases |a|
  {
    if a == [] {
      assert a + b == b;
    } else {
      assert (a + b)[0] == a[0];
      assert (a + b)[1..] == a[1..] + b;
      RunAppend(Step(s, a[0]), a[1..], b);
    }
  }

  /** Every event keeps the invariant. */
  lemma StepPreservesInv(s: ComponentState, e: Event)
    requires Inv(s)
    ensures Inv(Step(s, e))
  {
  }

  lemma {:induction false} RunPreservesInv(s: ComponentState, events: seq<Event>)
    requires Inv(s)
    ensures Inv(Run(s, events))
    decreases |events|
  {
    if events != [] {
      StepPreservesInv(s, events[0]);
      RunPreservesInv(Step(s, events[0]), events[1..]);
    }
  }

  /** No handler ever sets SIGN_UP, so that screen is never reached from the
      initial state; and the loading-message index always names a message. */
  lemma SignUpUnreachable(events: seq<Event>)
    ensures Run(Initial, events).appState != SignUp
    ensures Run(Initial, events).loadingMessageIndex < |LoadingMessages|
  {
    RunPreservesInv(Initial, events);
  }

  /** Once the boot loader has published the bundle or the data error, that
      publication never changes: the configuration is loaded exactly once. */
  lemma {:induction false} BootPublishedOnce(s: ComponentState, events: seq<Event>)
    requires Settled(s)
    ensures Run(s, events).appData == s.appData
    ensures Run(s, events).dataError == s.dataError
    decreases |events|
  {
    if events != [] {
      BootPublishedOnce(Step(s, events[0]), events[1..]);
    }
  }

  /** A failed boot is fatal: whatever happens afterwards, the bundle is never
      published and the data error is what is rendered. */
  lemma BootFailureIsFatal(s: ComponentState, fetched: Result<Responses>, events: seq<Event>)
    requires Inv(s) && !Settled(s)
    requires BootOutcome(fetched).Failure?
    ensures Run(Step(s, BootReturned(fetched)), events).appData.None?
    ensures RenderContent(Run(Step(s, BootReturned(fetched)), events)) ==
              DataErrorView(BootOutcome(fetched).error)
  {
    var booted := Step(s, BootReturned(fetched));
    StepPreservesInv(s, BootReturned(fetched));
    BootPublishedOnce(booted, events);
    RunPreservesInv(booted, events);
  }

  /** Before the boot loader settles no screen is rendered, only the spinner. */
  lemma NoScreenBeforeBoot(s: ComponentState)
    requires Inv(s) && !Settled(s)
    ensures RenderContent(s) == SpinnerView
  {
  }

  predicate IsTick(e: Event) {
    e.FadeOutFired? || e.AdvanceFired?
  }

  /** The cycler's timers are cancelled when the screen leaves Generating: no
      timer event changes anything until the screen is Generating again. */
  lemma {:induction false} TicksInertOutsideGenerating(s: ComponentState, events: seq<Event>)
    requires s.appState != Generating
    requires forall i :: 0 <= i < |events| ==> IsTick(events[i])
    ensures Run(s, events) == s
    decreases |events|
  {
    if events != [] {
      assert IsTick(events[0]);
      TicksInertOutsideGenerating(Step(s, events[0]), events[1..]);
    }
  }

  /** k full timer periods: a fade-out followed by the advance it schedules. */
  function Rounds(k: nat): seq<Event> {
    if k == 0 then [] else [FadeOutFired, AdvanceFired] + Rounds(k - 1)
  }

  lemma OneRound(s: ComponentState)
    requires s.appState == Generating && !s.advancePending
    ensures Run(s, [FadeOutFired, AdvanceFired]) ==
              s.(loadingMessageIndex := NextMessageIndex(s.loadingMessageIndex), textFadeClass := Opacity100)
  {
  }

  /** Each period moves to the next message, wrapping after the last one, and
      leaves it fully visible; nothing else changes. */
  lemma {:induction false} CyclerAdvances(s: ComponentState, k: nat)
    requires s.appState == Generating && !s.advancePending
    requires s.loadingMessageIndex < |LoadingMessages|
    ensures Run(s, Rounds(k)) ==
              s.(loadingMessageIndex := (s.loadingMessageIndex + k) % |LoadingMessages|,
                 textFadeClass := if k == 0 then s.textFadeClass else Opacity100)
    decreases k
  {
    if k > 0 {
      var next := s.(loadingMessageIndex := NextMessageIndex(s.loadingMessageIndex), textFadeClass := Opacity100);
      RunAppend(s, [FadeOutFired, AdvanceFired], Rounds(k - 1));
      OneRound(s);
      CyclerAdvances(next, k - 1);
      assert (NextMessageIndex(s.loadingMessageIndex) + (k - 1)) % |LoadingMessages| ==
             (s.loadingMessageIndex + k) % |LoadingMessages|;
    }
  }

  /** Entering Generating restarts the cycle: after k periods the k-th message
      (counting from 0, modulo the list's length) is shown, fully visible. */
  lemma GeneratingShowsMessages(s: ComponentState, k: nat)
    requires Inv(s) && s.appData.Some? && s.appState != Generating
    ensures RenderContent(Run(OnFormSubmit(s), Rounds(k))) ==
              GeneratingView(Some(LoadingMessages[k % |LoadingMessages|]), Opacity100)
    ensures FadeClass(Run(OnFormSubmit(s), Rounds(k)).textFadeClass) == "opacity-100"
  {
    CyclerAdvances(OnFormSubmit(s), k);
  }

  /** Events that can change the stored profile. */
  predicate WritesProfile(e: Event) {
    e.EditProfile? || e.CompleteProfile? || e.ProceedResume? || e.SignInReturned? || e.ResetRequested?
  }

  /** Only the forms, a successful sign-in and reset touch the profile: in particular a
      failed generation keeps every field the user entered. */
  lemma {:induction false} ProfileKept(s: ComponentState, events: seq<Event>)
    requires forall i :: 0 <= i < |events| ==> !WritesProfile(events[i])
    ensures Run(s, events).userProfile == s.userProfile
    decreases |events|
  {
    if events != [] {
      assert !WritesProfile(events[0]);
      ProfileKept(Step(s, events[0]), events[1..]);
    }
  }

  /** Reset restores the initial state except for the boot data and the
      loading-message fields, from any reachable state. */
  lemma ResetRestoresInitial(s: ComponentState)
    requires Inv(s)
    ensures OnReset(s) ==
              Initial.(appData := s.appData, dataError := s.dataError,
                       loadingMessageIndex := s.loadingMessageIndex, textFadeClass := s.textFadeClass)
  {
  }

  /** Scenario: a user who has completed education signs in, submits a
      profile, and the service returns two recommendations. */
  lemma CompletedEducationScenario(
    fetched: Result<Responses>, user: User, profile: UserProfile,
    first: CareerRecommendation, second: CareerRecommendation)
    requires BootOutcome(fetched).Success?
    ensures var s := Run(Initial, [BootReturned(fetched), SelectType(CompletedEducation),
                                   SignInReturned(Success(user)), CompleteProfile(profile),
                                   RecommendationsReturned(Success([first, second]))]);
            && s.appState == Results
            && RenderContent(s) == ResultsView([first, second])
            && s.userProfile == profile
  {
    var e1, e2, e3 := BootReturned(fetched), SelectType(CompletedEducation), SignInReturned(Success(user));
    var e4, e5 := CompleteProfile(profile), RecommendationsReturned(Success([first, second]));
    assert [e1, e2, e3, e4, e5][1..] == [e2, e3, e4, e5];
    assert [e2, e3, e4, e5][1..] == [e3, e4, e5];
    assert [e3, e4, e5][1..] == [e4, e5];
    assert [e4, e5][1..] == [e5];
    var s1 := Step(Initial, e1);
    var s2 := Step(s1, e2);
    var s3 := Step(s2, e3);
    var s4 := Step(s3, e4);
    assert s1.appData.Some? && s3.userType == Some(CompletedEducation);
    assert Run(s4, [e5]) == Step(s4, e5);
    assert Run(s3, [e4, e5]) == Run(s4, [e5]);
    assert Run(s2, [e3, e4, e5]) == Run(s3, [e4, e5]);
    assert Run(s1, [e2, e3, e4, e5]) == Run(s2, [e3, e4, e5]);
  }

  /** Scenario: a user still in education is sent to the resume builder, not
      to generation, and proceeding from it starts generation. */
  lemma InEducationScenario(fetched: Result<Responses>, user: User, profile: UserProfile)
    requires BootOutcome(fetched).Success?
    ensures var s := Run(Initial, [BootReturned(fetched), SelectType(InEducation),
                                   SignInReturned(Success(user)), CompleteProfile(profile)]);
            && s.appState == ResumeBuilder
            && RenderContent(s) == ResumeBuilderView(profile)
            && OnResumeProceed(s, profile).appState == Generating
  {
    var e1, e2, e3, e4 := BootReturned(fetched), SelectType(InEducation), SignInReturned(Success(user)), CompleteProfile(profile);
    assert [e1, e2, e3, e4][1..] == [e2, e3, e4];
    assert [e2, e3, e4][1..] == [e3, e4];
    assert [e3, e4][1..] == [e4];
    var s1 := Step(Initial, e1);
    var s2 := Step(s1, e2);
    var s3 := Step(s2, e3);
    assert s1.appData.Some? && s3.userType == Some(InEducation);
    assert Run(s3, [e4]) == Step(s3, e4);
    assert Run(s2, [e3, e4]) == Run(s3, [e4]);
    assert Run(s1, [e2, e3, e4]) == Run(s2, [e3, e4]);
  }

  /** The same user stays on the resume builder whatever timer events occur
      meanwhile: only the resume step's proceed starts generation. */
  lemma InEducationWaitsForResume(fetched: Result<Responses>, user: User, profile: UserProfile, ticks: seq<Event>)
    requires BootOutcome(fetched).Success?
    requires forall i :: 0 <= i < |ticks| ==> IsTick(ticks[i])
    ensures var s := Run(Initial, [BootReturned(fetched), SelectType(InEducation),
                                   SignInReturned(Success(user)), CompleteProfile(profile)]);
            Run(s, ticks) == s && s.appState == ResumeBuilder
  {
    var s := Run(Initial, [BootReturned(fetched), SelectType(InEducation),
                           SignInReturned(Success(user)), CompleteProfile(profile)]);
    InEducationScenario(fetched, user, profile);
    TicksInertOutsideGenerating(s, ticks);
  }

  /** Scenario: the service rejects with a message; the user is back on the
      profile form with that message and the profile exactly as submitted,
      however many loading-message periods passed meanwhile. */
  lemma GenerationFailureScenario(s: ComponentState, profile: UserProfile, message: string, k: nat)
    requires Inv(s) && s.appData.Some? && s.appState == ProfileBuilding
    requires s.userType == Some(CompletedEducation)
    requires message != ""
    ensures var t := Run(s, [CompleteProfile(profile)] + Rounds(k) + [RecommendationsReturned(Failure(message))]);
            && t.appState == ProfileBuilding
            && t.error == Some(message)
            && t.userProfile == profile
            && RenderContent(t) == ProfileFormView(s.userType, profile, Some(message), s.appData.value)
  {
    var submitted := Step(s, CompleteProfile(profile));
    assert ([CompleteProfile(profile)] + Rounds(k))[1..] == Rounds(k);
    CyclerAdvances(submitted, k);
    RunAppend(s, [CompleteProfile(profile)] + Rounds(k), [RecommendationsReturned(Failure(message))]);
  }

  /** The component does not discard a result that arrives after a reset.
      Two requests are outstanding when the profile form's completion fires
      twice before the form is re-rendered. The first result leads to the
      results screen, whose reset control the user then uses; the second,
      stale, result still moves the reset component back to RESULTS. */
  lemma StaleResultAfterReset(
    s: ComponentState, profile: UserProfile, first: seq<CareerRecommendation>, second: seq<CareerRecommendation>)
    requires Inv(s) && s.appData.Some? && s.appState == ProfileBuilding
    requires s.userType == Some(CompletedEducation)
    ensures var answered := Run(s, [CompleteProfile(profile), CompleteProfile(profile),
                                    RecommendationsReturned(Success(first))]);
            && answered.appState == Results
            && answered.recommendations == first
    ensures var t := Run(s, [CompleteProfile(profile), CompleteProfile(profile),
                             RecommendationsReturned(Success(first)), ResetRequested,
                             RecommendationsReturned(Success(second))]);
            && t.appState == Results
            && t.userType.None?
            && t.userProfile == InitialState
            && t.recommendations == second
  {
    var e1, e2, e3 := CompleteProfile(profile), CompleteProfile(profile), RecommendationsReturned(Success(first));
    var e4, e5 := ResetRequested, RecommendationsReturned(Success(second));
    assert [e1, e2, e3, e4, e5][1..] == [e2, e3, e4, e5];
    assert [e2, e3, e4, e5][1..] == [e3, e4, e5];
    assert [e3, e4, e5][1..] == [e4, e5];
    assert [e4, e5][1..] == [e5];
    assert [e1, e2, e3][1..] == [e2, e3];
    assert [e2, e3][1..] == [e3];
    var s1 := Step(s, e1);
    var s2 := Step(s1, e2);
    var s3 := Step(s2, e3);
    var s4 := Step(s3, e4);
    assert s1.appState == Generating && s2.appState == Generating;
    assert Run(s2, [e3]) == s3;
    assert Run(s1, [e2, e3]) == Run(s2, [e3]);
    assert Run(s4, [e5]) == Step(s4, e5);
    assert Run(s3, [e4, e5]) == Run(s4, [e5]);
    assert Run(s2, [e3, e4, e5]) == Run(s3, [e4, e5]);
    assert Run(s1, [e2, e3, e4, e5]) == Run(s2, [e3, e4, e5]);
  }
}
