/**
 * The conversation-list entry the prompt area derives when a send finishes (its `onFinish`
 * callback), which it then upserts into the conversation list cache.
 */
module ConversationSummary {
  import opened Wrappers
  import opened JsStrings
  import opened ChatTypes

  /**
   * onFinish's item. `current` is the conversation id the prompt area held when it sent, `message`
   * the trimmed text it sent; `createdAt` and `updatedAt` are the two clock readings. No item when
   * neither the finished message nor the prompt area knows a conversation id.
   */
  function FinishedItem(finished: FinishedMessage, current: Option<string>, message: string, createdAt: string, updatedAt: string)
    : (item: Option<ConversationItem>)
    ensures item.Some? <==> Truthy(finished.conversationId) || Truthy(current)
    ensures item.Some? && Truthy(finished.conversationId) ==> item.value.id == finished.conversationId.value
    ensures item.Some? && !Truthy(finished.conversationId) ==> item.value.id == current.value
    ensures item.Some? ==> item.value.id != ""
    ensures item.Some? && Truthy(finished.conversationTitle) ==> item.value.title == finished.conversationTitle.value
    ensures item.Some? && !Truthy(finished.conversationTitle) ==> item.value.title == message
    ensures item.Some? ==> item.value.createdAt == createdAt && item.value.updatedAt == updatedAt
  {
    var id := if Truthy(finished.conversationId) then finished.conversationId else current;
    if !Truthy(id) then None
    else
      var title := if Truthy(finished.conversationTitle) then finished.conversationTitle.value else message;
      Some(ConversationItem(id.value, title, createdAt, updatedAt))
  }

  /** The item of a send of non-blank input always has a non-empty title. */
  lemma SentTitleNonEmpty(finished: FinishedMessage, current: Option<string>, input: string, createdAt: string, updatedAt: string)
    requires !Blank(input)
    ensures var item := FinishedItem(finished, current, Trim(input), createdAt, updatedAt);
      item.Some? ==> item.value.title != ""
  {
    TrimEmptyIffBlank(input);
  }
}
