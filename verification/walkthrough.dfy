/** The walkthrough overlay: a list of views with descriptions, highlighted
    one at a time, a tap moving to the next, and dismissal after the last.

    The user-defaults flags it reads and writes are fields of the controller;
    masks, frames and the label's layout are left out, and the label is
    represented by the text it shows. Presenting and dismissing the
    controller are recorded in `effects`. */
module WalkthroughOverlay {
  import opened Wrappers

  /** A highlighted view, identified by a number, and its description. */
  datatype ViewDescription = ViewDescription(view: nat, description: string)

  datatype Effect = Dismissed | AgreementOffered

  class WalkthroughViewController {
    var viewDescriptions: seq<ViewDescription>
    var currentIndex: nat
    var labelText: Option<string>
    var walkthroughShown: bool
    var hasAgreedToTerms: bool
    var effects: seq<Effect>

    /** The static `presentWalkthrough`: a new controller over the given
        views, starting at the first one, with no label yet. */
    constructor (viewDescriptions: seq<ViewDescription>, walkthroughShown: bool, hasAgreedToTerms: bool)
      ensures this.viewDescriptions == viewDescriptions && currentIndex == 0 && labelText.None?
      ensures this.walkthroughShown == walkthroughShown && this.hasAgreedToTerms == hasAgreedToTerms
      ensures effects == []
      ensures Valid()
    {
      this.viewDescriptions := viewDescriptions;
      currentIndex := 0;
      labelText := None;
      this.walkthroughShown := walkthroughShown;
      this.hasAgreedToTerms := hasAgreedToTerms;
      effects := [];
    }

    /** The cursor never runs past the end of the list. */
    predicate Valid()
      reads this
    {
      currentIndex <= |viewDescriptions|
    }

    /** `showViewAtIndex`: the label shows the description of that view. The
        source indexes the list directly, so the index must be in range. */
    method ShowViewAtIndex(index: nat)
      requires index < |viewDescriptions|
      modifies this
      ensures viewDescriptions == old(viewDescriptions) && currentIndex == old(currentIndex)
      ensures labelText == Some(viewDescriptions[index].description)
      ensures walkthroughShown == old(walkthroughShown) && hasAgreedToTerms == old(hasAgreedToTerms)
      ensures effects == old(effects)
    {
      labelText := Some(viewDescriptions[index].description);
    }

    /** `presentWalkthrough`: the view at the cursor is shown; an empty list
        makes the index out of range and stops the process. */
    method PresentWalkthrough() returns (r: Guarded<()>)
      modifies this
      ensures r.Traps? <==> currentIndex >= |viewDescriptions|
      ensures r.Completes? ==> labelText == Some(viewDescriptions[currentIndex].description)
      ensures r.Traps? ==> labelText == old(labelText)
      ensures viewDescriptions == old(viewDescriptions) && currentIndex == old(currentIndex)
      ensures walkthroughShown == old(walkthroughShown) && hasAgreedToTerms == old(hasAgreedToTerms)
      ensures effects == old(effects)
    {
      if currentIndex >= |viewDescriptions| {
        return Traps;
      }
      ShowViewAtIndex(currentIndex);
      return Completes(());
    }

    /** `showWalkthroughIfNeeded`: a walkthrough not shown before is
        presented and the flag set; otherwise the controller dismisses
        itself. */
    method ShowWalkthroughIfNeeded() returns (r: Guarded<()>)
      modifies this
      ensures old(walkthroughShown) ==>
                r.Completes? && walkthroughShown && labelText == old(labelText) &&
                effects == old(effects) + [Dismissed]
      ensures !old(walkthroughShown) ==>
                effects == old(effects) &&
                (r.Traps? <==> currentIndex >= |viewDescriptions|)
      ensures !old(walkthroughShown) && r.Completes? ==>
                walkthroughShown && labelText == Some(viewDescriptions[currentIndex].description)
      ensures viewDescriptions == old(viewDescriptions) && currentIndex == old(currentIndex)
      ensures hasAgreedToTerms == old(hasAgreedToTerms)
    {
      if !walkthroughShown {
        r := PresentWalkthrough();
        if r.Traps? {
          return;
        }
        walkthroughShown := true;
      } else {
        effects := effects + [Dismissed];
        r := Completes(());
      }
    }

    /** `dismissWalkthrough`: the list, the cursor and the label are reset;
        once the controller is gone, the terms are offered unless already
        accepted. */
    method DismissWalkthrough()
      modifies this
      ensures viewDescriptions == [] && currentIndex == 0 && labelText.None?
      ensures effects == old(effects) + [Dismissed] + (if hasAgreedToTerms then [] else [AgreementOffered])
      ensures walkthroughShown == old(walkthroughShown) && hasAgreedToTerms == old(hasAgreedToTerms)
      ensures Valid()
    {
      labelText := None;
      viewDescriptions := [];
      currentIndex := 0;
      effects := effects + [Dismissed];
      if !hasAgreedToTerms {
        effects := effects + [AgreementOffered];
      }
    }

    /** `handleTap`: the cursor moves on; the next view is shown if there is
        one, and the walkthrough is dismissed otherwise. */
    method HandleTap()
      modifies this
      ensures old(currentIndex) + 1 < |old(viewDescriptions)| ==>
                currentIndex == old(currentIndex) + 1 && viewDescriptions == old(viewDescriptions) &&
                labelText == Some(viewDescriptions[currentIndex].description) && effects == old(effects)
      ensures old(currentIndex) + 1 >= |old(viewDescriptions)| ==>
                viewDescriptions == [] && currentIndex == 0 && labelText.None? &&
                effects == old(effects) + [Dismissed] + (if hasAgreedToTerms then [] else [AgreementOffered])
      ensures walkthroughShown == old(walkthroughShown) && hasAgreedToTerms == old(hasAgreedToTerms)
      ensures old(Valid()) ==> Valid()
    {
      currentIndex := currentIndex + 1;
      if currentIndex < |viewDescriptions| {
        ShowViewAtIndex(currentIndex);
      } else {
        DismissWalkthrough();
      }
    }
  }
}
