/**
 * The profile and settings panel: a notifications preference, a two-step
 * sign-out confirmation, and the fallbacks the profile header shows when the
 * optional `user` prop is missing or partial.
 */
module ProfileSettings {
  import opened Wrappers

  /** The optional `user` prop. */
  datatype User = User(name: string, avatarUrl: Option<string>, level: Option<int>)

  /** `user?.name?.[0] || "U"`: the avatar's fallback letter. */
  function AvatarInitial(user: Option<User>): (r: string)
    ensures |r| == 1
    ensures user.Some? && user.value.name != "" ==> r == user.value.name[..1]
    ensures user.None? || user.value.name == "" ==> r == "U"
  {
    if user.Some? && user.value.name != "" then [user.value.name[0]] else "U"
  }

  /** `user?.name || "Your Name"`. */
  function DisplayName(user: Option<User>): (r: string)
    ensures r != ""
    ensures user.Some? && user.value.name != "" ==> r == user.value.name
    ensures user.None? || user.value.name == "" ==> r == "Your Name"
  {
    if user.Some? && user.value.name != "" then user.value.name else "Your Name"
  }

  /** `user?.level ?? 5`: only a missing level falls back; 0 is kept. */
  function DisplayLevel(user: Option<User>): (r: int)
    ensures user.Some? && user.value.level.Some? ==> r == user.value.level.value
    ensures user.None? || user.value.level.None? ==> r == 5
  {
    if user.Some? then user.value.level.GetOr(5) else 5
  }

  /** What the avatar renders: the image for a non-empty URL, else the letter. */
  datatype AvatarView = AvatarImage(src: string, alt: string) | AvatarFallback(letter: string)

  function Avatar(user: Option<User>): (v: AvatarView)
    ensures v.AvatarImage? <==> user.Some? && user.value.avatarUrl.Some? && user.value.avatarUrl.value != ""
    ensures v.AvatarImage? ==> v.src == user.value.avatarUrl.value && v.alt == user.value.name
    ensures v.AvatarFallback? ==> v.letter == AvatarInitial(user) && |v.letter| == 1
  {
    if user.Some? && user.value.avatarUrl.Some? && user.value.avatarUrl.value != "" then
      AvatarImage(user.value.avatarUrl.value, user.value.name)
    else
      AvatarFallback(AvatarInitial(user))
  }

  /**
   * The fallback letter is the first letter of the displayed name exactly when
   * a name is given: without one the header shows "U" beside "Your Name".
   */
  lemma InitialMatchesNameIff(user: Option<User>)
    ensures AvatarInitial(user) == DisplayName(user)[..1] <==> user.Some? && user.value.name != ""
  {
    if !(user.Some? && user.value.name != "") {
      assert DisplayName(user)[..1] == "Y";
    }
  }

  /** `||` and `??` treat falsy values differently: an empty name falls back, level 0 does not. */
  lemma FallbacksDiffer(url: Option<string>)
    ensures DisplayName(Some(User("", url, Some(0)))) == "Your Name"
    ensures DisplayLevel(Some(User("", url, Some(0)))) == 0
    ensures DisplayLevel(Some(User("", url, None))) == 5
  {
  }

  datatype SettingKey = Account | Notifications | Language | About

  /** The settings rows, in display order; only the notifications row carries a switch. */
  datatype SettingItem = SettingItem(key: SettingKey, caption: string, toggle: bool)

  const SettingsRows: seq<SettingItem> := [
    SettingItem(Account, "Account Settings", false),
    SettingItem(Notifications, "Notification Preferences", true),
    SettingItem(Language, "App Language", false),
    SettingItem(About, "About Genlingo", false)
  ]

  /**
   * Each key has one row, and the row carrying the switch is the
   * notifications row: the row whose click handler flips the same flag.
   */
  lemma SwitchOnlyOnNotificationsRow()
    ensures forall i :: 0 <= i < |SettingsRows| ==>
      (SettingsRows[i].toggle <==> SettingsRows[i].key == Notifications)
    ensures (set r | r in SettingsRows :: r.key) == {Account, Notifications, Language, About}
  {
  }

  datatype PanelState = PanelState(notifications: bool, showSignOutConfirm: bool)

  const Initial := PanelState(true, false)

  datatype Event =
    | RowClicked(key: SettingKey)
    | SwitchChanged(checked: bool)
    | SignOutClicked
    | ConfirmClicked
    | CancelClicked

  /** The confirm and cancel buttons exist only while the confirmation is shown. */
  predicate Enabled(s: PanelState, e: Event)
  {
    match e
    case ConfirmClicked => s.showSignOutConfirm
    case CancelClicked => s.showSignOutConfirm
    case _ => true
  }

  /**
   * A step: the next state and how many times `onSignOut` was called;
   * `hasSignOut` says whether the parent supplied that optional callback.
   */
  datatype Transition = Transition(next: PanelState, signOuts: nat)

  function Step(s: PanelState, e: Event, hasSignOut: bool): Transition
    requires Enabled(s, e)
  {
    match e
    case RowClicked(k) =>
      Transition(if k == Notifications then s.(notifications := !s.notifications) else s, 0)
    case SwitchChanged(b) => Transition(s.(notifications := b), 0)
    case SignOutClicked => Transition(s.(showSignOutConfirm := true), 0)
    case ConfirmClicked => Transition(s.(showSignOutConfirm := false), if hasSignOut then 1 else 0)
    case CancelClicked => Transition(s.(showSignOutConfirm := false), 0)
  }

  /** Clicking the notifications row flips it; the other rows change nothing. */
  lemma RowClickEffect(s: PanelState, k: SettingKey, hasSignOut: bool)
    ensures var t := Step(s, RowClicked(k), hasSignOut);
      t.signOuts == 0 && t.next.showSignOutConfirm == s.showSignOutConfirm &&
      (t.next.notifications != s.notifications <==> k == Notifications)
  {
  }

  /** The switch sets the value it reports, whatever the old one was: a set, not a flip. */
  lemma SwitchSetsReported(s: PanelState, b: bool, hasSignOut: bool)
    ensures var n := Step(s, SwitchChanged(b), hasSignOut).next;
      n.notifications == b && n.showSignOutConfirm == s.showSignOutConfirm &&
      Step(n, SwitchChanged(b), hasSignOut).next == n
  {
  }

  /**
   * A click on the switch also reaches its row, whose handler flips the value
   * again: the two handlers together leave the preference as it was.
   */
  lemma SwitchAndRowCancel(s: PanelState, hasSignOut: bool)
    ensures var n := Step(s, SwitchChanged(!s.notifications), hasSignOut).next;
      Step(n, RowClicked(Notifications), hasSignOut).next == s
  {
  }

  /** Opening and then cancelling the confirmation restores the state and signs nobody out. */
  lemma OpenThenCancel(s: PanelState, hasSignOut: bool)
    requires !s.showSignOutConfirm
    ensures var o := Step(s, SignOutClicked, hasSignOut);
      o.next.notifications == s.notifications && o.next.showSignOutConfirm &&
      Step(o.next, CancelClicked, hasSignOut) == Transition(s, 0)
  {
  }

  /** Confirming hides the confirmation and signs out once, if a callback was given. */
  lemma ConfirmSignsOut(s: PanelState, hasSignOut: bool)
    requires Enabled(s, ConfirmClicked)
    ensures var t := Step(s, ConfirmClicked, hasSignOut);
      !t.next.showSignOutConfirm && t.next.notifications == s.notifications &&
      t.signOuts == (if hasSignOut then 1 else 0)
  {
  }

  predicate Allowed(s: PanelState, es: seq<Event>, hasSignOut: bool)
    decreases |es|
  {
    es == [] || (Enabled(s, es[0]) && Allowed(Step(s, es[0], hasSignOut).next, es[1..], hasSignOut))
  }

  function Run(s: PanelState, es: seq<Event>, hasSignOut: bool): Transition
    requires Allowed(s, es, hasSignOut)
    decreases |es|
  {
    if es == [] then Transition(s, 0)
    else
      var t := Step(s, es[0], hasSignOut);
      var rest := Run(t.next, es[1..], hasSignOut);
      Transition(rest.next, t.signOuts + rest.signOuts)
  }

  function Count(es: seq<Event>, e: Event): (n: nat)
    ensures n <= |es|
    ensures n == 0 <==> e !in es
    decreases |es|
  {
    if es == [] then 0 else (if es[0] == e then 1 else 0) + Count(es[1..], e)
  }

  /**
   * Sign-out takes two steps: along any run, the sign-out calls plus a
   * confirmation still open at the end never outnumber the times the
   * confirmation was opened (plus one if it was already open), and each call
   * needs its own confirm click.
   */
  lemma {:induction false} SignOutNeedsOpenAndConfirm(s: PanelState, es: seq<Event>, hasSignOut: bool)
    requires Allowed(s, es, hasSignOut)
    ensures var t := Run(s, es, hasSignOut);
      t.signOuts + (if t.next.showSignOutConfirm then 1 else 0)
        <= Count(es, SignOutClicked) + (if s.showSignOutConfirm then 1 else 0)
    ensures Run(s, es, hasSignOut).signOuts <= Count(es, ConfirmClicked)
    decreases |es|
  {
    if es != [] {
      SignOutNeedsOpenAndConfirm(Step(s, es[0], hasSignOut).next, es[1..], hasSignOut);
    }
  }

  /** From the initial panel, no run without a sign-out click calls `onSignOut`. */
  lemma NoSignOutWithoutOpening(es: seq<Event>, hasSignOut: bool)
    requires Allowed(Initial, es, hasSignOut) && SignOutClicked !in es
    ensures Run(Initial, es, hasSignOut).signOuts == 0
  {
    SignOutNeedsOpenAndConfirm(Initial, es, hasSignOut);
  }

  /** The component: its two `useState` flags and the count of `onSignOut` calls. */
  class Panel {
    var notifications: bool
    var showSignOutConfirm: bool
    const hasSignOut: bool
    var signOutCalls: nat

    function State(): PanelState
      reads this
    {
      PanelState(notifications, showSignOutConfirm)
    }

    constructor (hasSignOut: bool)
      ensures State() == Initial && this.hasSignOut == hasSignOut && signOutCalls == 0
    {
      notifications, showSignOutConfirm := true, false;
      this.hasSignOut := hasSignOut;
      signOutCalls := 0;
    }

    /** `onClick` of a settings row. */
    method ClickRow(key: SettingKey)
      modifies this
      ensures State() == Step(old(State()), RowClicked(key), hasSignOut).next
      ensures signOutCalls == old(signOutCalls)
    {
      if key == Notifications {
        notifications := !notifications;
      }
    }

    /** `onCheckedChange` of the notifications switch. */
    method ChangeSwitch(checked: bool)
      modifies this
      ensures State() == Step(old(State()), SwitchChanged(checked), hasSignOut).next
      ensures signOutCalls == old(signOutCalls)
    {
      notifications := checked;
    }

    /** `onClick` of the sign-out row. */
    method ClickSignOut()
      modifies this
      ensures State() == Step(old(State()), SignOutClicked, hasSignOut).next
      ensures signOutCalls == old(signOutCalls)
    {
      showSignOutConfirm := true;
    }

    /** "Yes, Sign Out". */
    method Confirm()
      requires showSignOutConfirm
      modifies this
      ensures State() == Step(old(State()), ConfirmClicked, hasSignOut).next
      ensures signOutCalls == old(signOutCalls) + Step(old(State()), ConfirmClicked, hasSignOut).signOuts
    {
      showSignOutConfirm := false;
      if hasSignOut {
        signOutCalls := signOutCalls + 1;
      }
    }

    /** "Cancel". */
    method Cancel()
      requires showSignOutConfirm
      modifies this
      ensures State() == Step(old(State()), CancelClicked, hasSignOut).next
      ensures signOutCalls == old(signOutCalls)
    {
      showSignOutConfirm := false;
    }
  }
}
