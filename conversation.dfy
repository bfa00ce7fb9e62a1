/** The conversation log: role-tagged messages kept in turn order. */
module Conversation {

  /** The three roles a message of the log can carry. */
  datatype Role = System | Assistant | User

  datatype Message = Message(role: Role, content: string)

  /** The log right after a reset: the system prompt followed by the greeting. */
  function Greeting(systemPrompt: string, firstPrompt: string): seq<Message>
  {
    [Message(System, systemPrompt), Message(Assistant, firstPrompt)]
  }

  /** No two neighbouring messages are both user turns. */
  predicate Alternating(h: seq<Message>)
  {
    forall i :: 0 < i < |h| ==> !(h[i - 1].role == User && h[i].role == User)
  }

  predicate EndsWithUser(h: seq<Message>)
  {
    |h| > 0 && h[|h| - 1].role == User
  }

  /** A reset log alternates and does not end with a user turn. */
  lemma GreetingAlternates(systemPrompt: string, firstPrompt: string)
    ensures Alternating(Greeting(systemPrompt, firstPrompt))
    ensures !EndsWithUser(Greeting(systemPrompt, firstPrompt))
  {
  }

  /** A turn that commits its answer keeps the log alternating and ends on the answer. */
  lemma CommittedTurnAlternates(h: seq<Message>, question: string, answer: string)
    requires Alternating(h) && !EndsWithUser(h)
    ensures Alternating(h + [Message(User, question), Message(Assistant, answer)])
    ensures !EndsWithUser(h + [Message(User, question), Message(Assistant, answer)])
  {
  }

  /** A turn that records the question but no answer leaves the log ending with a user turn,
      so the next turn puts two user messages side by side. */
  lemma UncommittedTurnsBreakAlternation(h: seq<Message>, first: string, second: string)
    ensures EndsWithUser(h + [Message(User, first)])
    ensures !Alternating(h + [Message(User, first)] + [Message(User, second)])
  {
    var h' := h + [Message(User, first)] + [Message(User, second)];
    assert h'[|h|].role == User && h'[|h| + 1].role == User;
  }
}
