/** The view model behind the SmartSpectra button: the first-use chain that
    shows the tutorial, the terms of service and the privacy policy before
    the screening page, and the tutorial pager.

    The three flags of the user-defaults store are fields of the view model.
    The outcome of each connectivity probe is an input, and so is the answer
    the user gives on the terms and privacy screens, which store it in their
    flag (those screens are not part of this model). Every screen presented
    by the chain is taken to call its completion when the user leaves it. */
module Onboarding {
  import opened Wrappers

  /** What the view model puts on screen, in order. */
  datatype Screen = Walkthrough | UserAgreement | PrivacyPolicy | NoInternetAlert | ScreeningPage

  /** The three flags as the chain reads them, once, before it starts. */
  datatype Flags = Flags(walkthroughShown: bool, hasAgreedToTerms: bool, hasAgreedToPrivacyPolicy: bool)

  /** Whether the chain gets past the terms step: the terms were already
      accepted, or the terms screen could be shown. */
  predicate ReachesPrivacy(flags: Flags, termsConnected: bool) {
    flags.hasAgreedToTerms || termsConnected
  }

  /** Whether the chain reaches its completion. */
  predicate ChainCompletes(flags: Flags, termsConnected: bool, privacyConnected: bool) {
    ReachesPrivacy(flags, termsConnected) && (flags.hasAgreedToPrivacyPolicy || privacyConnected)
  }

  /** The screens the chain presents, for the flags it read and the outcome of
      the connectivity probes: walkthrough, then terms, then privacy, each
      only when its flag is false; a failed probe shows an alert and ends the
      chain. */
  function GatePlan(flags: Flags, termsConnected: bool, privacyConnected: bool): (r: seq<Screen>)
    ensures |r| <= 3
    ensures Walkthrough in r <==> !flags.walkthroughShown
    ensures UserAgreement in r <==> !flags.hasAgreedToTerms && termsConnected
    ensures PrivacyPolicy in r <==>
              ReachesPrivacy(flags, termsConnected) && !flags.hasAgreedToPrivacyPolicy && privacyConnected
    ensures NoInternetAlert in r <==> !ChainCompletes(flags, termsConnected, privacyConnected)
    ensures ScreeningPage !in r
    ensures forall i :: 0 < i < |r| ==> r[i] != Walkthrough
    ensures forall i :: 0 <= i < |r| - 1 ==> r[i] != NoInternetAlert
    ensures forall i, j :: 0 <= i < |r| && 0 <= j < |r| && r[i] == UserAgreement && r[j] == PrivacyPolicy ==> i < j
  {
    TutorialStep(flags) + TermsStep(flags, termsConnected) + PrivacyStep(flags, termsConnected, privacyConnected)
  }

  /** The walkthrough step of the chain. */
  function TutorialStep(flags: Flags): (r: seq<Screen>)
    ensures r == [] || r == [Walkthrough]
    ensures Walkthrough in r <==> !flags.walkthroughShown
  {
    if !flags.walkthroughShown then [Walkthrough] else []
  }

  /** The terms step: skipped once accepted, an alert without connectivity. */
  function TermsStep(flags: Flags, termsConnected: bool): (r: seq<Screen>)
    ensures r == [] || r == [UserAgreement] || r == [NoInternetAlert]
    ensures UserAgreement in r <==> !flags.hasAgreedToTerms && termsConnected
    ensures NoInternetAlert in r <==> !ReachesPrivacy(flags, termsConnected)
  {
    if flags.hasAgreedToTerms then []
    else if termsConnected then [UserAgreement]
    else [NoInternetAlert]
  }

  /** The privacy step: reached only past the terms step, skipped once
      accepted, an alert without connectivity. */
  function PrivacyStep(flags: Flags, termsConnected: bool, privacyConnected: bool): (r: seq<Screen>)
    ensures r == [] || r == [PrivacyPolicy] || r == [NoInternetAlert]
    ensures PrivacyPolicy in r <==>
              ReachesPrivacy(flags, termsConnected) && !flags.hasAgreedToPrivacyPolicy && privacyConnected
    ensures NoInternetAlert in r <==>
              ReachesPrivacy(flags, termsConnected) && !flags.hasAgreedToPrivacyPolicy && !privacyConnected
  {
    if !ReachesPrivacy(flags, termsConnected) || flags.hasAgreedToPrivacyPolicy then []
    else if privacyConnected then [PrivacyPolicy]
    else [NoInternetAlert]
  }

  /** A user who has seen everything and agreed to everything goes straight
      to the completion. */
  lemma AllFlagsSetSkipsEveryStep(termsConnected: bool, privacyConnected: bool)
    ensures GatePlan(Flags(true, true, true), termsConnected, privacyConnected) == []
    ensures ChainCompletes(Flags(true, true, true), termsConnected, privacyConnected)
  {
  }

  /** Screens presented one step after another are the steps' screens
      presented together. */
  lemma Regroup(before: seq<Screen>, a: seq<Screen>, b: seq<Screen>, c: seq<Screen>)
    ensures before + a + b + c == before + (a + b + c)
  {
  }

  class ButtonViewModel {
    var walkthroughShown: bool
    var hasAgreedToTerms: bool
    var hasAgreedToPrivacyPolicy: bool
    var presented: seq<Screen>

    /** A view model over a store holding the given flags. */
    constructor (walkthroughShown: bool, hasAgreedToTerms: bool, hasAgreedToPrivacyPolicy: bool)
      ensures this.walkthroughShown == walkthroughShown
      ensures this.hasAgreedToTerms == hasAgreedToTerms
      ensures this.hasAgreedToPrivacyPolicy == hasAgreedToPrivacyPolicy
      ensures presented == []
    {
      this.walkthroughShown := walkthroughShown;
      this.hasAgreedToTerms := hasAgreedToTerms;
      this.hasAgreedToPrivacyPolicy := hasAgreedToPrivacyPolicy;
      presented := [];
    }

    function CurrentFlags(): Flags
      reads this
    {
      Flags(walkthroughShown, hasAgreedToTerms, hasAgreedToPrivacyPolicy)
    }

    /** `handleWalkTrough`: the tutorial pager is presented and the
        walkthrough flag set. */
    method HandleWalkthrough()
      modifies this
      ensures walkthroughShown
      ensures presented == old(presented) + [Walkthrough]
      ensures hasAgreedToTerms == old(hasAgreedToTerms)
      ensures hasAgreedToPrivacyPolicy == old(hasAgreedToPrivacyPolicy)
    {
      presented := presented + [Walkthrough];
      walkthroughShown := true;
    }

    /** The "Show Tutorial" action: the flag is cleared, and the tutorial is
        presented, which sets it again. */
    method ShowTutorial()
      modifies this
      ensures walkthroughShown
      ensures presented == old(presented) + [Walkthrough]
      ensures hasAgreedToTerms == old(hasAgreedToTerms)
      ensures hasAgreedToPrivacyPolicy == old(hasAgreedToPrivacyPolicy)
    {
      walkthroughShown := false;
      HandleWalkthrough();
    }

    /** `presentUserAgreement`: without connectivity an alert is shown and
        the completion is never called. */
    method PresentUserAgreement(connected: bool, answer: bool) returns (completed: bool)
      modifies this
      ensures completed == connected
      ensures connected ==> presented == old(presented) + [UserAgreement] && hasAgreedToTerms == answer
      ensures !connected ==> presented == old(presented) + [NoInternetAlert] && hasAgreedToTerms == old(hasAgreedToTerms)
      ensures walkthroughShown == old(walkthroughShown)
      ensures hasAgreedToPrivacyPolicy == old(hasAgreedToPrivacyPolicy)
    {
      if connected {
        presented := presented + [UserAgreement];
        hasAgreedToTerms := answer;
        completed := true;
      } else {
        presented := presented + [NoInternetAlert];
        completed := false;
      }
    }

    /** `presentPrivacyPolicy`, with the same connectivity gate. */
    method PresentPrivacyPolicy(connected: bool, answer: bool) returns (completed: bool)
      modifies this
      ensures completed == connected
      ensures connected ==> presented == old(presented) + [PrivacyPolicy] && hasAgreedToPrivacyPolicy == answer
      ensures !connected ==>
                presented == old(presented) + [NoInternetAlert] &&
                hasAgreedToPrivacyPolicy == old(hasAgreedToPrivacyPolicy)
      ensures walkthroughShown == old(walkthroughShown)
      ensures hasAgreedToTerms == old(hasAgreedToTerms)
    {
      if connected {
        presented := presented + [PrivacyPolicy];
        hasAgreedToPrivacyPolicy := answer;
        completed := true;
      } else {
        presented := presented + [NoInternetAlert];
        completed := false;
      }
    }

    /** `showTutorialAndAgreementIfNecessary`: the flags are read once, and
        the steps run in the order of `GatePlan`; `completed` says whether
        the chain's completion is called. */
    method ShowTutorialAndAgreementIfNecessary(termsConnected: bool, termsAnswer: bool,
                                               privacyConnected: bool, privacyAnswer: bool)
      returns (completed: bool)
      modifies this
      ensures completed == ChainCompletes(old(CurrentFlags()), termsConnected, privacyConnected)
      ensures presented == old(presented) + GatePlan(old(CurrentFlags()), termsConnected, privacyConnected)
      ensures walkthroughShown
      ensures hasAgreedToTerms ==
                if !old(hasAgreedToTerms) && termsConnected then termsAnswer else old(hasAgreedToTerms)
      ensures hasAgreedToPrivacyPolicy ==
                if ReachesPrivacy(old(CurrentFlags()), termsConnected) && !old(hasAgreedToPrivacyPolicy) &&
                   privacyConnected
                then privacyAnswer else old(hasAgreedToPrivacyPolicy)
    {
      ghost var flags := CurrentFlags();
      var shown := walkthroughShown;
      var agreedToTerms := hasAgreedToTerms;
      var agreedToPrivacyPolicy := hasAgreedToPrivacyPolicy;
      if !shown {
        HandleWalkthrough();
      }
      ghost var afterTutorial := presented;
      assert afterTutorial == old(presented) + TutorialStep(flags);
      // showAgreements
      var reachedPrivacy := true;
      if !agreedToTerms {
        reachedPrivacy := PresentUserAgreement(termsConnected, termsAnswer);
      }
      ghost var afterTerms := presented;
      assert afterTerms == afterTutorial + TermsStep(flags, termsConnected);
      if !reachedPrivacy {
        assert PrivacyStep(flags, termsConnected, privacyConnected) == [];
        assert presented == afterTerms + PrivacyStep(flags, termsConnected, privacyConnected);
        Regroup(old(presented), TutorialStep(flags), TermsStep(flags, termsConnected),
                PrivacyStep(flags, termsConnected, privacyConnected));
        return false;
      }
      // showPrivacyPolicy
      if !agreedToPrivacyPolicy {
        completed := PresentPrivacyPolicy(privacyConnected, privacyAnswer);
      } else {
        completed := true;
      }
      assert presented == afterTerms + PrivacyStep(flags, termsConnected, privacyConnected);
      Regroup(old(presented), TutorialStep(flags), TermsStep(flags, termsConnected),
              PrivacyStep(flags, termsConnected, privacyConnected));
    }

    /** `smartSpectraButtonTapped`: after the chain, the screening page is
        shown only when both agreement flags, read again, are set. */
    method SmartSpectraButtonTapped(termsConnected: bool, termsAnswer: bool,
                                    privacyConnected: bool, privacyAnswer: bool)
      returns (screening: bool)
      modifies this
      ensures screening <==>
                ChainCompletes(old(CurrentFlags()), termsConnected, privacyConnected) &&
                hasAgreedToTerms && hasAgreedToPrivacyPolicy
      ensures presented ==
                old(presented) + GatePlan(old(CurrentFlags()), termsConnected, privacyConnected) +
                (if screening then [ScreeningPage] else [])
      ensures walkthroughShown
      ensures hasAgreedToTerms ==
                if !old(hasAgreedToTerms) && termsConnected then termsAnswer else old(hasAgreedToTerms)
      ensures hasAgreedToPrivacyPolicy ==
                if ReachesPrivacy(old(CurrentFlags()), termsConnected) && !old(hasAgreedToPrivacyPolicy) &&
                   privacyConnected
                then privacyAnswer else old(hasAgreedToPrivacyPolicy)
    {
      var completed := ShowTutorialAndAgreementIfNecessary(termsConnected, termsAnswer, privacyConnected, privacyAnswer);
      screening := completed && hasAgreedToTerms && hasAgreedToPrivacyPolicy;
      if screening {
        presented := presented + [ScreeningPage];
      }
    }
  }

  /** One tutorial page: an image and its description. */
  datatype Page = Page(imageName: string, description: string)

  const ImageNames: seq<string> := [
    "tutorial_image1", "tutorial_image2", "tutorial_image3", "tutorial_image4",
    "tutorial_image5", "tutorial_image6", "tutorial_image7"]

  const Descriptions: seq<string> := [
    "Place your device running SmartSpectra on a stable surface, like a table.",
    "SmartSpectra works best when you're in a well-lit environment with natural sunlight for optimal performance.",
    "SmartSpectra works best when your face is evenly lit and does not have shadows.",
    "Avoid having bright light sources directly behind your face, such as overhead lighting.",
    "Stay still and refrain from talking while using SmartSpectra.",
    "You'll receive real-time feedback during the measurement process to assist you.",
    "Start recording with SmartSpectra upon the 'Hold Still and Record' prompt. A 30-second recording follows, and should feedback appear, comply with the prompts for an auto-restart."]

  /** No two pages are equal, so a page is found at its own index. */
  predicate Distinct(pages: seq<Page>) {
    forall i, j :: 0 <= i < j < |pages| ==> pages[i] != pages[j]
  }

  /** `pages.firstIndex(of:)` */
  function IndexOf(pages: seq<Page>, p: Page): (r: Option<nat>)
    ensures r.None? <==> p !in pages
    ensures r.Some? ==> r.value < |pages| && pages[r.value] == p && p !in pages[..r.value]
  {
    if pages == [] then None
    else if pages[0] == p then Some(0)
    else match IndexOf(pages[1..], p)
      case Some(k) => Some(k + 1)
      case None => None
  }

  /** `viewControllerBefore` */
  function Before(pages: seq<Page>, p: Page): Option<Page> {
    match IndexOf(pages, p)
    case None => None
    case Some(i) => if i - 1 >= 0 then Some(pages[i - 1]) else None
  }

  /** `viewControllerAfter` */
  function After(pages: seq<Page>, p: Page): Option<Page> {
    match IndexOf(pages, p)
    case None => None
    case Some(i) => if i + 1 >= |pages| then None else Some(pages[i + 1])
  }

  /** In a list of distinct pages, the page before page i is page i - 1 and
      the page after it is page i + 1, where those exist. */
  lemma {:induction false} NeighboursByIndex(pages: seq<Page>, i: nat)
    requires Distinct(pages) && i < |pages|
    ensures IndexOf(pages, pages[i]) == Some(i)
    ensures Before(pages, pages[i]) == if i >= 1 then Some(pages[i - 1]) else None
    ensures After(pages, pages[i]) == if i + 1 < |pages| then Some(pages[i + 1]) else None
  {
    assert pages[i] in pages;
  }

  /** Paging forward and then back returns to the same page, and the other
      way round. */
  lemma BackAndForth(pages: seq<Page>, p: Page)
    requires Distinct(pages)
    ensures After(pages, p).Some? ==> Before(pages, After(pages, p).value) == Some(p)
    ensures Before(pages, p).Some? ==> After(pages, Before(pages, p).value) == Some(p)
  {
    match IndexOf(pages, p)
    case None =>
    case Some(i) =>
      NeighboursByIndex(pages, i);
      if i + 1 < |pages| {
        NeighboursByIndex(pages, i + 1);
      }
      if i >= 1 {
        NeighboursByIndex(pages, i - 1);
      }
  }

  /** The page view controller of the tutorial. */
  class ImagePager {
    var pages: seq<Page>
    var visible: Option<Page>

    constructor ()
      ensures pages == [] && visible.None?
    {
      pages := [];
      visible := None;
    }

    /** `viewDidLoad`: one page per image, with the description at the same
        index, appended in order; the first page is shown. */
    method ViewDidLoad()
      modifies this
      ensures |pages| == |old(pages)| + 7
      ensures pages[..|old(pages)|] == old(pages)
      ensures forall i :: 0 <= i < 7 ==> pages[|old(pages)| + i] == Page(ImageNames[i], Descriptions[i])
      ensures pages != [] && visible == Some(pages[0])
    {
      var index := 0;
      while index < |ImageNames|
        invariant 0 <= index <= |ImageNames|
        invariant |pages| == |old(pages)| + index
        invariant pages[..|old(pages)|] == old(pages)
        invariant forall i :: 0 <= i < index ==> pages[|old(pages)| + i] == Page(ImageNames[i], Descriptions[i])
      {
        pages := pages + [Page(ImageNames[index], Descriptions[index])];
        index := index + 1;
      }
      visible := Some(pages[0]);
    }
  }

  /** The seven tutorial pages are distinct, so paging works by index. */
  lemma TutorialPagesDistinct(pages: seq<Page>)
    requires |pages| == 7
    requires forall i :: 0 <= i < 7 ==> pages[i] == Page(ImageNames[i], Descriptions[i])
    ensures Distinct(pages)
  {
    forall i, j | 0 <= i < j < |pages|
      ensures pages[i] != pages[j]
    {
      assert ImageNames[i][14] != ImageNames[j][14];
    }
  }
}
