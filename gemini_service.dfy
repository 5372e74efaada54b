/**
 * The client of the triage assistant: the single chat session that is
 * created lazily and dropped on reset, the cleaning of the reply text
 * before it is parsed as JSON, and the fallback of the voice-transcript
 * extraction. The assistant itself is outside the model: each reply is
 * an input value.
 */
module GeminiService {
  import opened Wrappers
  import opened Text
  import opened Types

  /** The language a session is created with when the caller names none. */
  const DefaultLanguage := "English"

  /** `text.replace(/```json/g, '').replace(/```/g, '').trim()`: the
    * reply without Markdown code fences and without surrounding
    * whitespace. */
  function CleanResponse(text: string): (r: string)
    ensures !Includes(r, "```")
    ensures Trimmed(r)
  {
    var unfenced := RemoveAll(RemoveAll(text, "```json"), "```");
    RemoveFenceLeavesNone(RemoveAll(text, "```json"));
    TrimKeepsAbsence(unfenced, "```");
    Trim(unfenced)
  }

  /** Text that is already clean is returned unchanged. */
  lemma CleanOfClean(text: string)
    requires !Includes(text, "```")
    requires Trimmed(text)
    ensures CleanResponse(text) == text
  {
    assert "```json"[..3] == "```";
    if Includes(text, "```json") {
      IncludesPrefix(text, "```json", 3);
    }
    RemoveAllAbsent(text, "```json");
    RemoveAllAbsent(text, "```");
    TrimOfTrimmed(text);
  }

  /** Text with no backtick and no surrounding whitespace passes through. */
  lemma CleanPassesThrough(text: string)
    requires '`' !in text
    requires Trimmed(text)
    ensures CleanResponse(text) == text
  {
    if Includes(text, "```") {
      IncludesChar(text, "```", 0);
    }
    CleanOfClean(text);
  }

  /** A reply wrapped in a "```json" ... "```" fence is cleaned to the
    * trimmed text between the fences. */
  lemma CleanFenced(body: string)
    requires '`' !in body
    ensures CleanResponse("```json" + body + "```") == Trim(body)
  {
    var fence, open := "```", "```json";
    assert |fence| == 3 < |open| && fence[0] == '`' && open[0] == '`';
    var text := open + body + fence;
    assert RemoveAll(text, open) == body + fence by {
      assert text == open + (body + fence);
      RemoveAllFront(open, body + fence);
      RemoveAllKeepsTickFree(body, fence, open);
    }
    assert RemoveAll(body + fence, fence) == body by {
      RemoveAllKeepsTickFree(body, fence, fence);
      RemoveAllFront(fence, []);
      assert fence + [] == fence;
    }
  }

  /** Cleaning twice is cleaning once. */
  lemma CleanIdempotent(text: string)
    ensures CleanResponse(CleanResponse(text)) == CleanResponse(text)
  {
    CleanOfClean(CleanResponse(text));
  }

  /** A chat session: the language its system instruction was written
    * for, and its place in the order in which sessions were created. */
  datatype Chat = Chat(language: string, serial: nat)

  /** The module-level `chatSession` and the messages sent through it. */
  class ChatService {
    var session: Option<Chat>
    /** How many sessions have been created so far. */
    var created: nat
    /** Every message sent, with the session it was sent on. */
    var sent: seq<(Chat, string)>

    constructor ()
      ensures session == None && created == 0 && sent == []
    {
      session := None;
      created := 0;
      sent := [];
    }

    /** `initializeChat(language)`: a new session replaces any current one.
      * `None` stands for an omitted argument. */
    method InitializeChat(language: Option<string>) returns (chat: Chat)
      modifies this
      ensures chat == Chat(if language.Some? then language.value else "English", old(created))
      ensures session == Some(chat) && created == old(created) + 1
      ensures sent == old(sent)
    {
      chat := Chat(language.GetOr(DefaultLanguage), created);
      session := Some(chat);
      created := created + 1;
    }

    /** `sendMessageToTriage(message, language)`. `reply` is the text the
      * assistant answers with, or `None` when the call fails; the result
      * is the cleaned text handed to the JSON parser, or `None` when the
      * send rejects. A session is created only when there is none, so
      * `language` matters only then; `None` stands for an omitted
      * argument. */
    method SendMessageToTriage(message: string, language: Option<string>, reply: Option<string>)
      returns (result: Option<string>)
      modifies this
      ensures old(session).Some? ==> session == old(session) && created == old(created)
      ensures old(session).None? ==>
        session == Some(Chat(if language.Some? then language.value else "English", old(created)))
        && created == old(created) + 1
      ensures session.Some? && sent == old(sent) + [(session.value, message)]
      ensures result == if reply.Some? then Some(CleanResponse(reply.value)) else None
    {
      if session.None? {
        var _ := InitializeChat(language);
      }
      if session.None? {
        // The "Failed to initialize chat session." branch: unreachable.
        return None;
      }
      sent := sent + [(session.value, message)];
      match reply {
        case None => result := None;
        case Some(text) => result := Some(CleanResponse(text));
      }
    }

    /** `resetSession()`: forget the session; the next send creates one. */
    method ResetSession()
      modifies this
      ensures session == None && created == old(created) && sent == old(sent)
    {
      session := None;
    }
  }

  /** `parsePatientVoiceInput(transcript)`. `reply` is the assistant's
    * answer text (`None` when the call fails) and `parsed` the outcome of
    * parsing it as JSON (`None` when that throws). */
  function ParsePatientVoiceInput(reply: Option<string>, parsed: Option<Extraction>): (e: Extraction)
    ensures reply.None? || reply == Some("") || parsed.None? ==> e == NoFields
    ensures reply.Some? && reply.value != "" && parsed.Some? ==> e == parsed.value
  {
    match reply
    case None => NoFields
    case Some(text) =>
      if text == "" then NoFields
      else parsed.GetOr(NoFields)
  }
}
