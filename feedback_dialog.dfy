/**
 * The feedback dialog: a text, an emoji rating, and the `submitting` and
 * `success` flags of its submission flow. `handleSubmit` awaits the parent's
 * `onSubmit` and then arms a 1800 ms timer that resets the dialog and asks
 * the parent to close it; the continuation after the `await` and the timer
 * callback are separate events here.
 */
module FeedbackDialog {
  import opened Wrappers

  datatype EmojiOption = EmojiOption(caption: string, value: int)

  /** The rating buttons, in display order. */
  const EmojiOptions: seq<EmojiOption> :=
    [EmojiOption("Great", 5), EmojiOption("Good", 4), EmojiOption("Okay", 3), EmojiOption("Bad", 2)]

  /** The textarea's `maxLength`. */
  const MaxFeedbackLength := 500
  /** What `handleSubmit` passes to `onSubmit`. */
  datatype Submission = Submission(text: string, rating: int)

  /** A call the dialog makes to its parent's callbacks. */
  datatype Call = SubmitCall(submission: Submission) | OpenChangeCall(open: bool)

  /**
   * The component's state, plus the number of `onSubmit` promises still
   * awaited and of reset timers still armed.
   */
  datatype DialogState = DialogState(
    feedback: string, rating: Option<int>, submitting: bool, success: bool,
    awaiting: nat, timers: nat)

  const Initial := DialogState("", None, false, false, 0, 0)

  /** The rating values the buttons offer. */
  function OfferedRatings(): (r: set<int>)
    ensures r == {2, 3, 4, 5}
  {
    set o | o in EmojiOptions :: o.value
  }

  /** `!rating`: null, and the number 0, are falsy. */
  predicate RatingFalsy(rating: Option<int>)
  {
    rating.None? || rating.value == 0
  }

  /** `disabled={submitting || success}` on the textarea. */
  predicate TextareaDisabled(s: DialogState)
  {
    s.submitting || s.success
  }

  /** `disabled={submitting || !feedback || !rating}` on the submit button. */
  predicate SubmitDisabled(s: DialogState)
  {
    s.submitting || s.feedback == "" || RatingFalsy(s.rating)
  }

  /** The thank-you indicator is rendered iff `success`. */
  predicate ThankYouShown(s: DialogState)
  {
    s.success
  }

  datatype Event =
    | TextEdited(text: string)
    | RatingPicked(option: nat)
    | SubmitBegun
    | SubmitResolved
    | SubmitRejected
    | TimerFired
    | CloseRequested

  /** Which events can occur: controls that are disabled produce none. */
  predicate Enabled(s: DialogState, e: Event)
  {
    match e
    case TextEdited(t) => !TextareaDisabled(s) && |t| <= MaxFeedbackLength
    case RatingPicked(i) => i < |EmojiOptions|
    case SubmitBegun => !SubmitDisabled(s)
    case SubmitResolved => s.awaiting > 0
    case SubmitRejected => s.awaiting > 0
    case TimerFired => s.timers > 0
    case CloseRequested => true
  }

  /** A step: the next state and the calls made to the parent. */
  datatype Transition = Transition(next: DialogState, calls: seq<Call>)

  function Step(s: DialogState, e: Event): Transition
    requires Enabled(s, e)
  {
    match e
    case TextEdited(t) => Transition(s.(feedback := t), [])
    case RatingPicked(i) => Transition(s.(rating := Some(EmojiOptions[i].value)), [])
    case SubmitBegun =>
      Transition(s.(submitting := true, awaiting := s.awaiting + 1),
                 [SubmitCall(Submission(s.feedback, s.rating.GetOr(0)))])
    case SubmitResolved =>
      Transition(s.(submitting := false, success := true, awaiting := s.awaiting - 1, timers := s.timers + 1), [])
    case SubmitRejected =>
      // the rejection propagates out of handleSubmit: nothing after the await runs
      Transition(s.(awaiting := s.awaiting - 1), [])
    case TimerFired =>
      Transition(s.(success := false, feedback := "", rating := None, timers := s.timers - 1),
                 [OpenChangeCall(false)])
    case CloseRequested =>
      // DialogClose and the overlay call the parent's onOpenChange directly
      Transition(s, [OpenChangeCall(false)])
  }

  /**
   * What holds in every reachable state: the rating is unset or an offered
   * value, at most one `onSubmit` is awaited and only while `submitting`, and
   * the thank-you indicator always has a reset timer armed behind it.
   */
  predicate Inv(s: DialogState)
  {
    && (s.rating.Some? ==> s.rating.value in OfferedRatings())
    && s.awaiting <= 1
    && (s.awaiting == 1 ==> s.submitting)
    && (s.success ==> s.timers > 0)
  }

  lemma InitialInv()
    ensures Inv(Initial) && !ThankYouShown(Initial) && SubmitDisabled(Initial)
  {
  }

  lemma StepInv(s: DialogState, e: Event)
    requires Inv(s) && Enabled(s, e)
    ensures Inv(Step(s, e).next)
  {
  }

  /** Picking the i-th button stores exactly that button's value, never 1. */
  lemma PickSetsOfferedValue(s: DialogState, i: nat)
    requires i < |EmojiOptions|
    ensures var r := Step(s, RatingPicked(i)).next.rating;
      r == Some(EmojiOptions[i].value) && r.value in {2, 3, 4, 5}
  {
  }

  /** With the invariant, the button's guard is: idle, some text, a rating picked. */
  lemma SubmitEnabledIff(s: DialogState)
    requires Inv(s)
    ensures !SubmitDisabled(s) <==> !s.submitting && s.feedback != "" && s.rating.Some?
  {
  }

  /**
   * Beginning a submit sets `submitting` and sends the current text and the
   * picked rating; `rating ?? 0` never falls back to 0 through the button.
   */
  lemma SubmitSendsDraft(s: DialogState)
    requires Inv(s) && Enabled(s, SubmitBegun)
    ensures var t := Step(s, SubmitBegun);
      t.next.submitting && t.next.feedback == s.feedback && t.next.rating == s.rating &&
      t.calls == [SubmitCall(Submission(s.feedback, s.rating.value))] &&
      s.feedback != "" && s.rating.value in {2, 3, 4, 5}
  {
  }

  /** When `onSubmit` resolves, the dialog shows success but still holds the draft. */
  lemma ResolveKeepsDraft(s: DialogState)
    requires Inv(s) && Enabled(s, SubmitResolved)
    ensures var n := Step(s, SubmitResolved).next;
      !n.submitting && ThankYouShown(n) && TextareaDisabled(n) &&
      n.feedback == s.feedback && n.rating == s.rating
  {
  }

  /** The timer clears the draft and the indicator and requests closing, once. */
  lemma TimerResets(s: DialogState)
    requires Enabled(s, TimerFired)
    ensures var t := Step(s, TimerFired);
      !ThankYouShown(t.next) && t.next.feedback == "" && t.next.rating.None? &&
      t.next.submitting == s.submitting && t.calls == [OpenChangeCall(false)]
  {
  }

  /** Closing the dialog from outside leaves the draft in place. */
  lemma CloseKeepsDraft(s: DialogState)
    ensures var t := Step(s, CloseRequested);
      t.next == s && t.calls == [OpenChangeCall(false)]
  {
  }

  /** Whether each event of a list is enabled in the state it reaches. */
  predicate Allowed(s: DialogState, es: seq<Event>)
    decreases |es|
  {
    es == [] || (Enabled(s, es[0]) && Allowed(Step(s, es[0]).next, es[1..]))
  }

  /** The state after a list of events, and every call made to the parent. */
  function Run(s: DialogState, es: seq<Event>): (r: Transition)
    requires Allowed(s, es)
    decreases |es|
  {
    if es == [] then Transition(s, [])
    else
      var t := Step(s, es[0]);
      var rest := Run(t.next, es[1..]);
      Transition(rest.next, t.calls + rest.calls)
  }

  /**
   * Over any run from a reachable state the invariant holds, and every
   * submission passed to `onSubmit` has non-empty text and an offered rating.
   */
  lemma {:induction false} RunInv(s: DialogState, es: seq<Event>)
    requires Inv(s) && Allowed(s, es)
    ensures Inv(Run(s, es).next)
    ensures forall c :: c in Run(s, es).calls && c.SubmitCall? ==>
      c.submission.text != "" && c.submission.rating in {2, 3, 4, 5}
    decreases |es|
  {
    if es != [] {
      StepInv(s, es[0]);
      RunInv(Step(s, es[0]).next, es[1..]);
    }
  }

  /**
   * No failure path: once a rejected `onSubmit` has left `submitting` set with
   * nothing awaited, no sequence of events clears it, and no further
   * submission is ever made.
   */
  lemma {:induction false} StuckAfterRejection(s: DialogState, es: seq<Event>)
    requires s.submitting && s.awaiting == 0 && Allowed(s, es)
    ensures var t := Run(s, es);
      t.next.submitting && t.next.awaiting == 0 && forall c :: c in t.calls ==> !c.SubmitCall?
    decreases |es|
  {
    if es != [] {
      StuckAfterRejection(Step(s, es[0]).next, es[1..]);
    }
  }

  /**
   * The other half of the missing failure path: once stuck without the
   * thank-you shown, it never appears again and the button stays disabled.
   */
  lemma {:induction false} NoSuccessAfterRejection(s: DialogState, es: seq<Event>)
    requires s.submitting && s.awaiting == 0 && !s.success && Allowed(s, es)
    ensures var n := Run(s, es).next; !ThankYouShown(n) && SubmitDisabled(n)
    decreases |es|
  {
    if es != [] {
      NoSuccessAfterRejection(Step(s, es[0]).next, es[1..]);
    }
  }

  /** A rejected submit leaves the dialog stuck in `submitting`. */
  lemma RejectionStrands(s: DialogState)
    requires Inv(s) && Enabled(s, SubmitBegun)
    ensures var n := Step(Step(s, SubmitBegun).next, SubmitRejected).next;
      n.submitting && n.awaiting == 0 && n.success == s.success &&
      n.feedback == s.feedback && n.rating == s.rating && n.timers == s.timers
  {
  }

  /**
   * The guard ignores `success`: during the thank-you window the same draft
   * can be submitted again, and then `submitting` and `success` are both set.
   */
  lemma ResubmitDuringSuccess()
    ensures var es := [TextEdited("Great app"), RatingPicked(0), SubmitBegun, SubmitResolved, SubmitBegun];
      Allowed(Initial, es) &&
      var t := Run(Initial, es);
      t.next.submitting && t.next.success &&
      t.calls == [SubmitCall(Submission("Great app", 5)), SubmitCall(Submission("Great app", 5))]
  {
    var s1 := Step(Initial, TextEdited("Great app")).next;
    var s2 := Step(s1, RatingPicked(0)).next;
    var s3 := Step(s2, SubmitBegun).next;
    var s4 := Step(s3, SubmitResolved).next;
    assert Enabled(s4, SubmitBegun);
  }

  /** The component: its `useState` fields and the log of calls made to its parent. */
  class Dialog {
    var feedback: string
    var rating: Option<int>
    var submitting: bool
    var success: bool
    var awaiting: nat
    var timers: nat
    var calls: seq<Call>

    function State(): DialogState
      reads this
    {
      DialogState(feedback, rating, submitting, success, awaiting, timers)
    }

    /** The component's state always satisfies the flow's invariant. */
    ghost predicate Valid()
      reads this
    {
      Inv(State())
    }

    constructor ()
      ensures Valid()
      ensures State() == Initial && calls == []
    {
      feedback, rating, submitting, success := "", None, false, false;
      awaiting, timers := 0, 0;
      calls := [];
    }

    /** `onChange` of the textarea. */
    method EditText(text: string)
      requires Valid()
      requires Enabled(State(), TextEdited(text))
      modifies this
      ensures Valid()
      ensures State() == Step(old(State()), TextEdited(text)).next && calls == old(calls)
    {
      feedback := text;
    }

    /** `onClick` of the i-th rating button. */
    method PickRating(i: nat)
      requires Valid()
      requires i < |EmojiOptions|
      modifies this
      ensures Valid()
      ensures State() == Step(old(State()), RatingPicked(i)).next && calls == old(calls)
      ensures rating.Some? && rating.value in OfferedRatings()
    {
      rating := Some(EmojiOptions[i].value);
    }

    /** `handleSubmit` up to the `await`: calls `onSubmit` with the draft. */
    method HandleSubmit() returns (sent: Submission)
      requires Valid()
      requires Enabled(State(), SubmitBegun)
      modifies this
      ensures Valid()
      ensures State() == Step(old(State()), SubmitBegun).next
      ensures calls == old(calls) + [SubmitCall(sent)]
      ensures sent == Submission(old(feedback), old(rating).GetOr(0))
      ensures sent.text != "" && sent.rating in {2, 3, 4, 5}
    {
      StepInv(State(), SubmitBegun);
      submitting := true;
      sent := Submission(feedback, rating.GetOr(0));
      awaiting := awaiting + 1;
      calls := calls + [SubmitCall(sent)];
    }

    /** The rest of `handleSubmit` once `onSubmit` resolves: shows success, arms the timer. */
    method OnSubmitResolved()
      requires Valid()
      requires awaiting > 0
      modifies this
      ensures Valid()
      ensures State() == Step(old(State()), SubmitResolved).next && calls == old(calls)
    {
      awaiting := awaiting - 1;
      submitting := false;
      success := true;
      timers := timers + 1;
    }

    /** `onSubmit` rejects: the rest of `handleSubmit` never runs. */
    method OnSubmitRejected()
      requires Valid()
      requires awaiting > 0
      modifies this
      ensures Valid()
      ensures State() == Step(old(State()), SubmitRejected).next && calls == old(calls)
    {
      awaiting := awaiting - 1;
    }

    /** The `setTimeout` callback. */
    method OnTimer()
      requires Valid()
      requires timers > 0
      modifies this
      ensures Valid()
      ensures State() == Step(old(State()), TimerFired).next
      ensures calls == old(calls) + [OpenChangeCall(false)]
    {
      timers := timers - 1;
      success := false;
      feedback := "";
      rating := None;
      calls := calls + [OpenChangeCall(false)];
    }

    /** The close button or the overlay: forwarded to the parent, no state changes. */
    method RequestClose()
      requires Valid()
      modifies this
      ensures Valid()
      ensures State() == old(State())
      ensures calls == old(calls) + [OpenChangeCall(false)]
    {
      calls := calls + [OpenChangeCall(false)];
    }
  }
}
