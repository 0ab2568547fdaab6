/**
 * The confirmation-dialog store: one global record of dialog fields with two actions,
 * `openConfirmation` and `closeConfirmation`. Each action hands the store a partial record, which
 * the store merges into its current state field by field; fields the partial record does not list
 * keep their values.
 */
module Confirmation {
  import opened Wrappers

  datatype ActionState = Normal | Danger

  /** A dialog description: plain text, or a rendered element the store only passes along. */
  datatype Description = Text(text: string) | Element(handle: nat)

  /** A callback the store keeps: the no-op `() => {}` it installs itself, or one a caller handed in. */
  datatype Callback = Noop | Handler(handle: nat)

  /**
   * The store's fields. `waitForAction` is absent until the first open, and `onCancel` is absent
   * after an open that did not pass one.
   */
  datatype ConfirmationState = ConfirmationState(
    open: bool,
    title: Option<string>,
    description: Option<Description>,
    cancelLabel: Option<string>,
    actionLabel: Option<string>,
    actionState: ActionState,
    waitForAction: Option<bool>,
    onAction: Callback,
    onCancel: Option<Callback>)

  /** The argument of openConfirmation; `actionState`, `waitForAction` and `onCancel` are optional. */
  datatype OpenRequest = OpenRequest(
    title: string,
    description: Description,
    cancelLabel: string,
    actionLabel: string,
    actionState: Option<ActionState>,
    waitForAction: Option<bool>,
    onAction: Callback,
    onCancel: Option<Callback>)

  /** A partial state handed to the store's `set`: `None` leaves a field out of the update. */
  datatype Patch = Patch(
    open: Option<bool>,
    title: Option<Option<string>>,
    description: Option<Option<Description>>,
    cancelLabel: Option<Option<string>>,
    actionLabel: Option<Option<string>>,
    actionState: Option<ActionState>,
    waitForAction: Option<Option<bool>>,
    onAction: Option<Callback>,
    onCancel: Option<Option<Callback>>)

  /** The state the store is created with. */
  function Initial(): (s: ConfirmationState)
    ensures !s.open && s.title.None? && s.description.None? && s.cancelLabel.None? && s.actionLabel.None?
    ensures s.actionState == Normal && s.onAction == Noop && s.onCancel == Some(Noop)
    ensures s.waitForAction.None?
  {
    ConfirmationState(false, None, None, None, None, Normal, None, Noop, Some(Noop))
  }

  /** The store's `set`: a shallow merge of the partial state into the current one. */
  function Merge(s: ConfirmationState, p: Patch): (r: ConfirmationState)
    ensures p.open.None? ==> r.open == s.open
    ensures p.open.Some? ==> r.open == p.open.value
    ensures p.title.None? ==> r.title == s.title
    ensures p.title.Some? ==> r.title == p.title.value
    ensures p.description.None? ==> r.description == s.description
    ensures p.description.Some? ==> r.description == p.description.value
    ensures p.cancelLabel.None? ==> r.cancelLabel == s.cancelLabel
    ensures p.cancelLabel.Some? ==> r.cancelLabel == p.cancelLabel.value
    ensures p.actionLabel.None? ==> r.actionLabel == s.actionLabel
    ensures p.actionLabel.Some? ==> r.actionLabel == p.actionLabel.value
    ensures p.actionState.None? ==> r.actionState == s.actionState
    ensures p.actionState.Some? ==> r.actionState == p.actionState.value
    ensures p.waitForAction.None? ==> r.waitForAction == s.waitForAction
    ensures p.waitForAction.Some? ==> r.waitForAction == p.waitForAction.value
    ensures p.onAction.None? ==> r.onAction == s.onAction
    ensures p.onAction.Some? ==> r.onAction == p.onAction.value
    ensures p.onCancel.None? ==> r.onCancel == s.onCancel
    ensures p.onCancel.Some? ==> r.onCancel == p.onCancel.value
    ensures p == Patch(None, None, None, None, None, None, None, None, None) ==> r == s
  {
    ConfirmationState(
      p.open.GetOr(s.open),
      p.title.GetOr(s.title),
      p.description.GetOr(s.description),
      p.cancelLabel.GetOr(s.cancelLabel),
      p.actionLabel.GetOr(s.actionLabel),
      p.actionState.GetOr(s.actionState),
      p.waitForAction.GetOr(s.waitForAction),
      p.onAction.GetOr(s.onAction),
      p.onCancel.GetOr(s.onCancel))
  }

  /** The partial state openConfirmation sets: every field, with `actionState` and `waitForAction` defaulted. */
  function OpenPatch(data: OpenRequest): (p: Patch)
    ensures p.open == Some(true)
    ensures p.title.Some? && p.description.Some? && p.cancelLabel.Some? && p.actionLabel.Some?
    ensures p.actionState.Some? && p.waitForAction.Some? && p.onAction.Some? && p.onCancel.Some?
    ensures p.onCancel == Some(data.onCancel)
  {
    Patch(
      Some(true),
      Some(Some(data.title)),
      Some(Some(data.description)),
      Some(Some(data.cancelLabel)),
      Some(Some(data.actionLabel)),
      Some(data.actionState.GetOr(Normal)),
      Some(Some(data.waitForAction.GetOr(false))),
      Some(data.onAction),
      Some(data.onCancel))
  }

  /** The partial state closeConfirmation sets: every field but `waitForAction`, back to its initial value. */
  function ClosePatch(): (p: Patch)
    ensures p.waitForAction.None?
    ensures p.open == Some(false)
    ensures p.title.Some? && p.description.Some? && p.cancelLabel.Some? && p.actionLabel.Some?
    ensures p.actionState.Some? && p.onAction.Some? && p.onCancel.Some?
  {
    Patch(Some(false), Some(None), Some(None), Some(None), Some(None), Some(Normal), None, Some(Noop), Some(Some(Noop)))
  }

  /** openConfirmation applied to a state. */
  function Opened(s: ConfirmationState, data: OpenRequest): (r: ConfirmationState)
    ensures r.open
    ensures r.title == Some(data.title) && r.description == Some(data.description)
    ensures r.cancelLabel == Some(data.cancelLabel) && r.actionLabel == Some(data.actionLabel)
    ensures r.onAction == data.onAction && r.onCancel == data.onCancel
    ensures data.actionState.None? ==> r.actionState == Normal
    ensures data.actionState.Some? ==> r.actionState == data.actionState.value
    ensures data.waitForAction.None? ==> r.waitForAction == Some(false)
    ensures data.waitForAction.Some? ==> r.waitForAction == data.waitForAction
  {
    Merge(s, OpenPatch(data))
  }

  /** closeConfirmation applied to a state. */
  function Closed(s: ConfirmationState): (r: ConfirmationState)
    ensures r == Initial().(waitForAction := s.waitForAction)
  {
    Merge(s, ClosePatch())
  }

  /** Opening does not depend on the prior state: a second open overwrites everything the first set. */
  lemma OpenOverwrites(s: ConfirmationState, first: OpenRequest, second: OpenRequest)
    ensures Opened(Opened(s, first), second) == Opened(s, second) == Opened(Initial(), second)
  {
  }

  /** Closing twice is closing once. */
  lemma CloseIdempotent(s: ConfirmationState)
    ensures Closed(Closed(s)) == Closed(s)
  {
  }

  /** Closing after an open keeps the open's `waitForAction`, defaulted to false. */
  lemma CloseKeepsWaitForAction(s: ConfirmationState, data: OpenRequest)
    ensures Closed(Opened(s, data)).waitForAction == Some(data.waitForAction == Some(true))
    ensures Closed(Opened(s, data)) != Initial()
  {
    match data.waitForAction
    case None =>
    case Some(w) =>
      assert data.waitForAction == Some(true) <==> w;
  }

  /** The global store instance. */
  class ConfirmationStore {
    var open: bool
    var title: Option<string>
    var description: Option<Description>
    var cancelLabel: Option<string>
    var actionLabel: Option<string>
    var actionState: ActionState
    var waitForAction: Option<bool>
    var onAction: Callback
    var onCancel: Option<Callback>

    function State(): ConfirmationState
      reads this
    {
      ConfirmationState(open, title, description, cancelLabel, actionLabel, actionState, waitForAction, onAction, onCancel)
    }

    /** The store is created closed, with no texts, a normal action, no-op callbacks and no `waitForAction`. */
    constructor ()
      ensures State() == Initial()
      ensures !open && title.None? && description.None? && cancelLabel.None? && actionLabel.None?
      ensures actionState == Normal && onAction == Noop && onCancel == Some(Noop) && waitForAction.None?
    {
      open, title, description, cancelLabel, actionLabel := false, None, None, None, None;
      actionState, waitForAction, onAction, onCancel := Normal, None, Noop, Some(Noop);
    }

    /** Installs `s` field by field. */
    method Set(s: ConfirmationState)
      modifies this
      ensures State() == s
    {
      open, title, description, cancelLabel, actionLabel := s.open, s.title, s.description, s.cancelLabel, s.actionLabel;
      actionState, waitForAction, onAction, onCancel := s.actionState, s.waitForAction, s.onAction, s.onCancel;
    }

    method OpenConfirmation(data: OpenRequest)
      modifies this
      ensures State() == Opened(old(State()), data)
    {
      Set(Merge(State(), OpenPatch(data)));
    }

    method CloseConfirmation()
      modifies this
      ensures State() == Closed(old(State()))
      ensures waitForAction == old(waitForAction)
    {
      Set(Merge(State(), ClosePatch()));
    }
  }
}
