/**
 * The prompt area's input component: the text being composed, the persisted draft table, the flag
 * that suspends draft saving after a submit, and the calls it makes into the chat store and the
 * conversation list cache. The chat store itself is outside this model: the component sees its
 * `status` and `conversationId`, and its `sendMessage` calls are recorded in `sendCalls`.
 */
module PromptInput {
  import opened Wrappers
  import opened JsStrings
  import opened ChatTypes
  import opened Drafts
  import opened Gating
  import opened ConversationSummary

  /** The `additionalData` sent with a message: the provider's search toggle, agent id and model. */
  datatype SendOptions = SendOptions(webSearch: bool, agent: Option<string>, model: string)

  /** One `sendMessage` call, with the conversation id that its `onFinish` callback closes over. */
  datatype SendCall = SendCall(message: string, options: SendOptions, conversationId: Option<string>)

  /** A debounced saveDraft call waiting for its timer: the content and the draft key its closure captured. */
  datatype PendingSave = PendingSave(key: string, content: string)

  /** The draft-load effect: the input shows the key's draft when there is one and is left alone otherwise. */
  function LoadedInput(drafts: seq<Draft>, key: string, input: string): (r: string)
    ensures FindDraft(drafts, key).Some? ==> r == FindDraft(drafts, key).value.content
    ensures FindDraft(drafts, key).None? ==> r == input
  {
    match FindDraft(drafts, key)
    case Some(d) => d.content
    case None => input
  }

  class PromptAreaInput {
    var input: string
    var drafts: seq<Draft>
    var shouldSave: bool
    var pendingSave: Option<PendingSave>
    var conversationId: Option<string>
    var status: Status
    var sendCalls: seq<SendCall>
    var cacheUpserts: seq<ConversationItem>

    /** `chatId`: the draft key of the current conversation. */
    function ChatId(): (key: string)
      reads this
      ensures key == ChatKey(conversationId)
    {
      ChatKey(conversationId)
    }

    /** Mounting: the stored drafts are read and the draft-load effect runs once. */
    constructor (stored: seq<Draft>, conversationId: Option<string>, status: Status)
      ensures drafts == stored && this.conversationId == conversationId && this.status == status
      ensures input == LoadedInput(stored, ChatKey(conversationId), "")
      ensures shouldSave && pendingSave.None? && sendCalls == [] && cacheUpserts == []
    {
      drafts := stored;
      this.conversationId := conversationId;
      this.status := status;
      shouldSave := true;
      pendingSave := None;
      sendCalls := [];
      cacheUpserts := [];
      input := LoadedInput(stored, ChatKey(conversationId), "");
    }

    /** The chat store reports a new status or conversation id; the draft-load effect runs when `chatId` changed. */
    method StoreChanged(newConversationId: Option<string>, newStatus: Status)
      modifies this
      ensures conversationId == newConversationId && status == newStatus
      ensures ChatId() != old(ChatId()) ==> input == LoadedInput(drafts, ChatId(), old(input))
      ensures ChatId() == old(ChatId()) ==> input == old(input)
      ensures drafts == old(drafts) && shouldSave == old(shouldSave) && pendingSave == old(pendingSave)
      ensures sendCalls == old(sendCalls) && cacheUpserts == old(cacheUpserts)
    {
      var previousKey := ChatId();
      conversationId := newConversationId;
      status := newStatus;
      if ChatId() != previousKey {
        input := LoadedInput(drafts, ChatId(), input);
      }
    }

    /** handleInputChange: saving is re-enabled, the input updated and a debounced save scheduled, replacing any pending one. */
    method HandleInputChange(value: string)
      modifies this`shouldSave, this`input, this`pendingSave
      ensures shouldSave && input == value
      ensures pendingSave == Some(PendingSave(ChatId(), value))
    {
      shouldSave := true;
      input := value;
      pendingSave := Some(PendingSave(ChatId(), value));
    }

    /** The debounce timer fires: the pending save runs unless a submit suspended saving since it was scheduled. */
    method DebounceElapsed(now: int)
      modifies this`drafts, this`pendingSave
      ensures pendingSave.None?
      ensures old(pendingSave).Some? && old(shouldSave) ==>
        drafts == SavedDrafts(old(drafts), old(pendingSave).value.key, old(pendingSave).value.content, now)
      ensures old(pendingSave).None? || !old(shouldSave) ==> drafts == old(drafts)
      ensures UniqueKeys(old(drafts)) ==> UniqueKeys(drafts)
    {
      if pendingSave.Some? {
        var save := pendingSave.value;
        pendingSave := None;
        if shouldSave {
          if UniqueKeys(drafts) {
            SaveKeepsUnique(drafts, save.key, save.content, now);
          }
          drafts := SavedDrafts(drafts, save.key, save.content, now);
        }
      }
    }

    /**
     * handleSubmit: blank input is ignored; otherwise the trimmed text is sent, the input cleared,
     * saving suspended and the current conversation's draft removed. A save still pending is left
     * scheduled; it is dropped when it fires.
     */
    method HandleSubmit(options: SendOptions)
      modifies this
      ensures Blank(old(input)) ==> unchanged(this)
      ensures !Blank(old(input)) ==>
        && sendCalls == old(sendCalls) + [SendCall(Trim(old(input)), options, old(conversationId))]
        && input == "" && !shouldSave
        && drafts == RemoveKey(old(drafts), old(ChatId()))
        && FindDraft(drafts, old(ChatId())).None?
        && pendingSave == old(pendingSave) && cacheUpserts == old(cacheUpserts)
        && conversationId == old(conversationId) && status == old(status)
      ensures UniqueKeys(old(drafts)) ==> UniqueKeys(drafts)
    {
      TrimEmptyIffBlank(input);
      if Trim(input) == "" {
        return;
      }
      var message := Trim(input);
      sendCalls := sendCalls + [SendCall(message, options, conversationId)];
      input := "";
      shouldSave := false;
      if UniqueKeys(drafts) {
        RemoveKeyKeepsUnique(drafts, ChatId());
      }
      drafts := RemoveKey(drafts, ChatId());
    }

    /** The `onFinish` of send number `k` runs: its conversation item, if any, is upserted into the cache. */
    method SendFinished(k: nat, finished: FinishedMessage, createdAt: string, updatedAt: string)
      requires k < |sendCalls|
      modifies this`cacheUpserts
      ensures var item := FinishedItem(finished, sendCalls[k].conversationId, sendCalls[k].message, createdAt, updatedAt);
        cacheUpserts == old(cacheUpserts) + (if item.Some? then [item.value] else [])
    {
      var call := sendCalls[k];
      var item := FinishedItem(finished, call.conversationId, call.message, createdAt, updatedAt);
      if item.Some? {
        cacheUpserts := cacheUpserts + [item.value];
      }
    }
  }

  /** Typing then letting the debounce fire stores the text under the conversation's key, or removes the draft when it is blank. */
  method DraftRoundTrip(stored: seq<Draft>, conversationId: Option<string>, text: string, now: int)
    returns (loaded: Option<Draft>)
    ensures loaded == if Blank(text) then None else Some(Draft(ChatKey(conversationId), text, now))
  {
    var area := new PromptAreaInput(stored, conversationId, Idle);
    area.HandleInputChange(text);
    area.DebounceElapsed(now);
    loaded := FindDraft(area.drafts, ChatKey(conversationId));
    SaveThenFind(stored, ChatKey(conversationId), text, now);
  }

  /** A save still pending when the user submits does not bring the submitted text back as a draft. */
  method SubmitDropsPendingSave(stored: seq<Draft>, conversationId: Option<string>, text: string,
                                options: SendOptions, now: int)
    returns (afterSubmit: Option<Draft>, calls: seq<SendCall>)
    ensures afterSubmit.None?
    ensures calls == if Blank(text) then [] else [SendCall(Trim(text), options, conversationId)]
  {
    var key := ChatKey(conversationId);
    var area := new PromptAreaInput(stored, conversationId, Idle);
    area.HandleInputChange(text);
    area.HandleSubmit(options);
    area.DebounceElapsed(now);
    afterSubmit := FindDraft(area.drafts, key);
    if Blank(text) {
      SaveThenFind(stored, key, text, now);
    }
    calls := area.sendCalls;
  }

  /** After a submit, the next keystroke re-enables saving, and its debounced save is stored. */
  method KeystrokeResumesSaving(stored: seq<Draft>, conversationId: Option<string>, text: string, next: string,
                                options: SendOptions, now: int)
    returns (loaded: Option<Draft>)
    ensures loaded == if Blank(next) then None else Some(Draft(ChatKey(conversationId), next, now))
  {
    var key := ChatKey(conversationId);
    var area := new PromptAreaInput(stored, conversationId, Idle);
    area.HandleInputChange(text);
    area.HandleSubmit(options);
    ghost var beforeNext := area.drafts;
    area.HandleInputChange(next);
    area.DebounceElapsed(now);
    loaded := FindDraft(area.drafts, key);
    SaveThenFind(beforeNext, key, next, now);
  }
}
