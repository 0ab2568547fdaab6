/** The record shapes of the chat feature that the prompt area and the server API exchange. */
module ChatTypes {
  import opened Wrappers

  /** A model the user can pick in the prompt area. */
  datatype AiModel = AiModel(id: string, name: string, description: string, group: string, provider: string)

  /**
   * The two fields of a finished assistant message that the prompt area reads. Both are typed as
   * strings, but a fresh conversation may deliver them empty or missing, so either may be absent.
   */
  datatype FinishedMessage = FinishedMessage(conversationId: Option<string>, conversationTitle: Option<string>)

  /** One entry of the conversation list cache, as the prompt area builds it when a send finishes. */
  datatype ConversationItem = ConversationItem(id: string, title: string, createdAt: string, updatedAt: string)

  /** JavaScript truthiness of a possibly missing string: only a present, non-empty string is truthy. */
  predicate Truthy(s: Option<string>) {
    s.Some? && s.value != ""
  }
}
