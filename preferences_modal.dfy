/** The cookie preferences dialog of `src/components/CookiePreferencesModal.tsx`: three
    switches of its own, a withdraw confirmation, and the hook it forwards decisions to.
    The dialog is open while its parent's `showModal` is set; `onClose` clears it. */
module PreferencesModal {

  import opened Wrappers
  import opened Browser
  import opened ConsentRecord
  import opened CookieManager
  import opened ConsentHook

  /** The object `handleSave` passes: all three switches, always present. */
  function Toggled(functional: bool, analytics: bool, marketing: bool): Choice {
    Choice(Some(functional), Some(analytics), Some(marketing))
  }

  /** The switch a category shows: `essential` is always on. */
  function Switch(k: Category, functional: bool, analytics: bool, marketing: bool): bool {
    match k
    case Essential => true
    case Functional => functional
    case Analytics => analytics
    case Marketing => marketing
  }

  /** Saving from the dialog stores every key, so the hook's filled-in copy and the stored
      record are the same categories. */
  lemma SavedCopyIsRecord(functional: bool, analytics: bool, marketing: bool)
    ensures Filled(Toggled(functional, analytics, marketing)) == Full(Toggled(functional, analytics, marketing))
    ensures Full(Toggled(functional, analytics, marketing)) == Categories(true, Some(functional), Some(analytics), Some(marketing))
  {
    FilledIsFull(Toggled(functional, analytics, marketing));
  }

  /** After saving from the dialog a category is allowed exactly when its switch was on. */
  lemma SaveAllowsSwitches(cs: seq<Cookie>, functional: bool, analytics: bool, marketing: bool,
                           timestamp: string, yearLater: int, now: nat, k: Category)
    requires WellFormed(cs) && IsoTimestamp(timestamp)
    ensures var r := Record(Version, timestamp, Full(Toggled(functional, analytics, marketing)), Preferences);
      AllowedIn(ConsentOf(Render(DecisionWrites(cs, r, yearLater, now))), k) <==> Switch(k, functional, analytics, marketing)
  {
    DecisionReadBack(cs, Record(Version, timestamp, Full(Toggled(functional, analytics, marketing)), Preferences), yearLater, now);
  }

  class Modal {

    const hook: Hook
    var isOpen: bool
    var functional: bool
    var analytics: bool
    var marketing: bool
    var showWithdrawConfirm: bool

    /** The first render: closed, every switch off whatever the stored consent says, no
        confirmation. */
    constructor (hook: Hook)
      ensures this.hook == hook
      ensures !isOpen && !functional && !analytics && !marketing && !showWithdrawConfirm
    {
      this.hook := hook;
      isOpen := false;
      functional := false;
      analytics := false;
      marketing := false;
      showWithdrawConfirm := false;
    }

    /** The parent's `setShowModal(true)`: the switches keep whatever they last showed. */
    method Open()
      modifies this
      ensures isOpen
      ensures functional == old(functional) && analytics == old(analytics) && marketing == old(marketing)
      ensures showWithdrawConfirm == old(showWithdrawConfirm)
    {
      isOpen := true;
    }

    /** `onClose`, from the close button, Cancel, or a click on the backdrop itself. */
    method Close()
      modifies this
      ensures !isOpen
      ensures functional == old(functional) && analytics == old(analytics) && marketing == old(marketing)
      ensures showWithdrawConfirm == old(showWithdrawConfirm)
    {
      isOpen := false;
    }

    /** `handleBackdropClick`: only a click whose target is the backdrop closes. */
    method BackdropClick(onBackdrop: bool)
      requires isOpen
      modifies this
      ensures isOpen == !onBackdrop
      ensures functional == old(functional) && analytics == old(analytics) && marketing == old(marketing)
      ensures showWithdrawConfirm == old(showWithdrawConfirm)
    {
      if onBackdrop {
        Close();
      }
    }

    /** A switch's `onClick`: it flips that switch alone. */
    method Flip(k: Category)
      requires isOpen && k != Essential
      modifies this
      ensures isOpen && showWithdrawConfirm == old(showWithdrawConfirm)
      ensures forall c :: c != Essential ==>
        Switch(c, functional, analytics, marketing) == (Switch(c, old(functional), old(analytics), old(marketing)) != (c == k))
    {
      match k {
        case Essential =>
        case Functional => functional := !functional;
        case Analytics => analytics := !analytics;
        case Marketing => marketing := !marketing;
      }
    }

    /** `handleAcceptAll`: every switch on; nothing is stored until Save. */
    method SelectAll()
      requires isOpen
      modifies this
      ensures isOpen && functional && analytics && marketing
      ensures showWithdrawConfirm == old(showWithdrawConfirm)
    {
      functional := true;
      analytics := true;
      marketing := true;
    }

    /** `handleRejectAll`: every switch off; nothing is stored until Save. */
    method ClearAll()
      requires isOpen
      modifies this
      ensures isOpen && !functional && !analytics && !marketing
      ensures showWithdrawConfirm == old(showWithdrawConfirm)
    {
      functional := false;
      analytics := false;
      marketing := false;
    }

    /** `handleSave`: the hook saves the three switches, then the dialog closes. */
    method Save(timestamp: string, yearLater: int, now: nat)
      requires isOpen && hook.mgr.Valid() && IsoTimestamp(timestamp)
      modifies this, hook, hook.mgr.win, hook.mgr.win.jar
      ensures hook.mgr.Valid() && !isOpen
      ensures functional == old(functional) && analytics == old(analytics) && marketing == old(marketing)
      ensures showWithdrawConfirm == old(showWithdrawConfirm)
      ensures hook.preferences == Some(Full(Toggled(functional, analytics, marketing)))
      ensures hook.mgr.win.jar.cookies == DecisionWrites(old(hook.mgr.win.jar.cookies),
        Record(Version, timestamp, Full(Toggled(functional, analytics, marketing)), Preferences), yearLater, now)
      ensures hook.mgr.win.effects == old(hook.mgr.win.effects)
        + ConsentTrackers.TriggerEffects(Full(Toggled(functional, analytics, marketing)), hook.mgr.env,
            old(hook.mgr.win.gtag), old(hook.mgr.win.fbq), old(hook.mgr.win.googleTagManager), now)
        + [SyncRequest(Full(Toggled(functional, analytics, marketing)))]
      ensures hook.hasConsented && hook.isLoading == old(hook.isLoading)
      ensures hook.mgr.win.gtag == if analytics then ConsentTrackers.GtagAfter(hook.mgr.env, old(hook.mgr.win.gtag)) else old(hook.mgr.win.gtag)
      ensures hook.mgr.win.fbq == if marketing then ConsentTrackers.FbqAfter(hook.mgr.env, old(hook.mgr.win.fbq)) else old(hook.mgr.win.fbq)
      ensures hook.mgr.win.va == old(hook.mgr.win.va) && hook.mgr.win.googleTagManager == old(hook.mgr.win.googleTagManager)
    {
      var choice := Toggled(functional, analytics, marketing);
      SavedCopyIsRecord(functional, analytics, marketing);
      hook.SavePreferences(choice, timestamp, yearLater, now);
      isOpen := false;
    }

    /** The Withdraw button: only asks for confirmation. */
    method AskWithdraw()
      requires isOpen
      modifies this
      ensures isOpen && showWithdrawConfirm
      ensures functional == old(functional) && analytics == old(analytics) && marketing == old(marketing)
    {
      showWithdrawConfirm := true;
    }

    /** Cancel in the confirmation: back to the dialog, nothing withdrawn. */
    method CancelWithdraw()
      requires isOpen && showWithdrawConfirm
      modifies this
      ensures isOpen && !showWithdrawConfirm
      ensures functional == old(functional) && analytics == old(analytics) && marketing == old(marketing)
    {
      showWithdrawConfirm := false;
    }

    /** `handleWithdraw`: the hook withdraws, the confirmation goes and the dialog closes;
        the switches keep what they showed. */
    method ConfirmWithdraw(now: nat)
      requires isOpen && showWithdrawConfirm && hook.mgr.Valid()
      modifies this, hook, hook.mgr.win, hook.mgr.win.jar
      ensures hook.mgr.Valid() && !isOpen && !showWithdrawConfirm
      ensures functional == old(functional) && analytics == old(analytics) && marketing == old(marketing)
      ensures hook.preferences == Some(ConsentTrackers.EssentialOnly) && !hook.hasConsented
      ensures hook.mgr.win.jar.cookies == WithdrawWrites(old(hook.mgr.win.jar.cookies), now)
      ensures hook.mgr.win.effects == old(hook.mgr.win.effects)
        + ConsentTrackers.ClearEffects(old(hook.mgr.win.gtag), old(hook.mgr.win.fbq)) + [WithdrawNotice]
      ensures hook.isLoading == old(hook.isLoading)
      ensures hook.mgr.win.gtag == old(hook.mgr.win.gtag) && hook.mgr.win.fbq == old(hook.mgr.win.fbq)
      ensures hook.mgr.win.va == old(hook.mgr.win.va) && hook.mgr.win.googleTagManager == old(hook.mgr.win.googleTagManager)
    {
      hook.WithdrawConsent(now);
      showWithdrawConfirm := false;
      isOpen := false;
    }
  }
}
