/**
 * Facts about the assistant's canned answers as a table: no two topics
 * share one.
 */
module AssistantReplies {
  import opened AIAssistant

  /** No two topics share an answer. */
  lemma ReplyDistinct(t: Topic, u: Topic)
    ensures Reply(t) == Reply(u) ==> t == u
  {
  }
}
