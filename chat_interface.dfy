/**
 * The chat view's send protocol: local `messages`, `inputValue` and
 * `isLoading`, two commits through the controller around one backend call.
 */
module ChatInterface {
  import opened Types
  import opened ChatService
  import opened App

  // ---------------------------------------------------------------------------
  // `String.prototype.trim`
  // ---------------------------------------------------------------------------

  /** ECMAScript WhiteSpace and LineTerminator code points, which `trim` removes. */
  predicate IsJsWhitespace(c: char) {
    c == '\t' || c == '\n' || c == '\U{000B}' || c == '\U{000C}' || c == '\r' || c == ' '
    || c == '\U{00A0}' || c == '\U{1680}' || ('\U{2000}' <= c <= '\U{200A}')
    || c == '\U{2028}' || c == '\U{2029}' || c == '\U{202F}' || c == '\U{205F}'
    || c == '\U{3000}' || c == '\U{FEFF}'
  }

  /** Every character of `s` is white space (the empty string included). */
  predicate IsBlank(s: string) {
    forall i :: 0 <= i < |s| ==> IsJsWhitespace(s[i])
  }

  /** The end of the run of white space in `s` that starts at `k`. */
  function SkipBlankForward(s: string, k: nat): (r: nat)
    requires k <= |s|
    ensures k <= r <= |s|
    ensures forall i :: k <= i < r ==> IsJsWhitespace(s[i])
    ensures r < |s| ==> !IsJsWhitespace(s[r])
    decreases |s| - k
  {
    if k < |s| && IsJsWhitespace(s[k]) then SkipBlankForward(s, k + 1) else k
  }

  /** The start of the run of white space in `s` that ends just before `k`. */
  function SkipBlankBackward(s: string, k: nat): (r: nat)
    requires k <= |s|
    ensures r <= k
    ensures forall i :: r <= i < k ==> IsJsWhitespace(s[i])
    ensures 0 < r ==> !IsJsWhitespace(s[r - 1])
  {
    if 0 < k && IsJsWhitespace(s[k - 1]) then SkipBlankBackward(s, k - 1) else k
  }

  /**
   * `s.trim()`: `s` without its leading and trailing white space; empty
   * exactly when `s` is blank, otherwise with non-blank first and last
   * characters.
   */
  function Trim(s: string): (r: string)
    // `s` with a blank prefix and a blank suffix cut off
    ensures exists i, j :: 0 <= i <= j <= |s| && r == s[i..j] && IsBlank(s[..i]) && IsBlank(s[j..])
    ensures r == "" <==> IsBlank(s)
    // and nothing that is not white space is cut off
    ensures r != "" ==> !IsJsWhitespace(r[0]) && !IsJsWhitespace(r[|r| - 1])
  {
    var start := SkipBlankForward(s, 0);
    var end := SkipBlankBackward(s, |s|);
    if start < end then
      assert IsBlank(s[..start]) && IsBlank(s[end..]);
      s[start..end]
    else
      assert s[0..0] == "" && IsBlank(s[..0]) && s[0..] == s;
      ""
  }

  // ---------------------------------------------------------------------------
  // The messages a send produces
  // ---------------------------------------------------------------------------

  const ErrorReplyText := "Oops! I couldn't reach my brain. Can you check if I'm awake? (Server Error)"

  /**
   * The values `handleSend` draws from its environment: the ids from
   * `generateId`, the readings of `Date.now()` (for the messages and for
   * the controller's two commits), how the backend request settles, and
   * whether each storage write fails.
   */
  datatype SendEnv = SendEnv(
    userId: string, userTime: int, firstCommitTime: int, firstSaveFails: bool,
    response: FetchOutcome,
    replyId: string, replyTime: int, secondCommitTime: int, secondSaveFails: bool)

  /** The bubble for the backend's answer: the reply text, or the fixed apology flagged as an error. */
  function ReplyMessage(result: Result<string, ServiceError>, id: string, time: int): (m: Message)
    ensures m.sender == Bot && m.id == id && m.timestamp == time
    ensures m.isError <==> result.Err?
    ensures result.Ok? ==> m.text == result.value
    ensures result.Err? ==> m.text == ErrorReplyText
  {
    match result
    case Ok(text) => Message(id, text, Bot, time, false)
    case Err(_) => Message(id, ErrorReplyText, Bot, time, true)
  }

  /** A response with a non-ok status always ends as the error bubble, whatever its body. */
  lemma ServerErrorBecomesErrorBubble(endpoint: string, text: string, status: int, statusText: string,
                                      body: Option<Json>, id: string, time: int)
    requires !IsOkStatus(status)
    ensures var m := ReplyMessage(SendMessageToBackend(endpoint, text, Responded(status, statusText, body)), id, time);
      m.isError && m.text == ErrorReplyText && m.sender == Bot
  {
  }

  /** What the view hands on: a commit through `onUpdateSession`, or the backend request with the view's state at that moment. */
  datatype Event =
    | Committed(sessionId: string, messages: seq<Message>)
    | BackendCalled(request: Request, input: string, loading: bool)

  class ChatView {
    const app: Controller
    const character: Character
    var currentSessionId: string
    var messages: seq<Message>
    var inputValue: string
    var isLoading: bool
    /** Everything the view has handed on, in order. */
    ghost var trace: seq<Event>

    /**
     * The controller state under which it renders this view: this view's
     * character selected and its session, a non-empty id, active.
     */
    ghost predicate Mounted()
      reads this, app
    {
      app.selectedCharacter == Some(character) && app.activeSessionId == Some(currentSessionId)
      && currentSessionId != ""
    }

    /** Mounting with the props the controller renders. */
    constructor (app: Controller, character: Character, sessionId: string, initialMessages: seq<Message>)
      ensures this.app == app && this.character == character && currentSessionId == sessionId
      ensures messages == initialMessages && inputValue == "" && !isLoading && trace == []
    {
      this.app := app;
      this.character := character;
      currentSessionId := sessionId;
      messages := initialMessages;
      inputValue := "";
      isLoading := false;
      trace := [];
    }

    /** The effect on a change of `currentSessionId` or `initialMessages`: local messages reset, input kept. */
    method ResetForSession(sessionId: string, initialMessages: seq<Message>)
      modifies this
      ensures currentSessionId == sessionId && messages == initialMessages
      ensures inputValue == old(inputValue) && isLoading == old(isLoading) && trace == old(trace)
    {
      currentSessionId := sessionId;
      messages := initialMessages;
    }

    /** The text box's `onChange`. */
    method SetInput(text: string)
      modifies this
      ensures inputValue == text
      ensures messages == old(messages) && isLoading == old(isLoading)
      ensures currentSessionId == old(currentSessionId) && trace == old(trace)
    {
      inputValue := text;
    }

    /** `onUpdateSession(currentSessionId, ms)`. */
    method Commit(ms: seq<Message>, now: int, saveFails: bool)
      modifies this, app, app.storage
      ensures trace == old(trace) + [Committed(currentSessionId, ms)]
      ensures messages == old(messages) && inputValue == old(inputValue) && isLoading == old(isLoading)
      ensures currentSessionId == old(currentSessionId)
      ensures app.selectedCharacter == old(app.selectedCharacter) && app.activeSessionId == old(app.activeSessionId)
      ensures old(app.selectedCharacter).None? ==>
        app.allSessions == old(app.allSessions) && app.storage.item == old(app.storage.item)
      ensures old(app.selectedCharacter).Some? ==>
        app.allSessions == Upsert(old(app.allSessions), currentSessionId, old(app.selectedCharacter).value.id, ms, now)
      ensures old(app.selectedCharacter).Some? ==>
        app.storage.item == if saveFails then old(app.storage.item) else Some(Document(app.allSessions))
    {
      app.HandleUpdateSession(currentSessionId, ms, now, saveFails);
      trace := trace + [Committed(currentSessionId, ms)];
    }

    /**
     * The part of `handleSend` before the backend call: the user message (the
     * untrimmed input) is appended and committed, the input cleared and
     * loading set.
     */
    method BeginSend(env: SendEnv) returns (userMsg: Message)
      modifies this, app, app.storage
      ensures userMsg == Message(env.userId, old(inputValue), User, env.userTime, false)
      ensures messages == old(messages) + [userMsg] && inputValue == "" && isLoading
      ensures trace == old(trace) + [Committed(currentSessionId, messages)]
      ensures currentSessionId == old(currentSessionId)
      ensures app.selectedCharacter == old(app.selectedCharacter) && app.activeSessionId == old(app.activeSessionId)
      ensures old(app.selectedCharacter).None? ==>
        app.allSessions == old(app.allSessions) && app.storage.item == old(app.storage.item)
      ensures old(app.selectedCharacter).Some? ==>
        app.allSessions == Upsert(old(app.allSessions), currentSessionId, old(app.selectedCharacter).value.id,
                                  messages, env.firstCommitTime)
      // the user's message is written through before the backend is asked
      ensures old(app.selectedCharacter).Some? ==>
        app.storage.item == if env.firstSaveFails then old(app.storage.item) else Some(Document(app.allSessions))
    {
      userMsg := Message(env.userId, inputValue, User, env.userTime, false);
      var updatedMessages := messages + [userMsg];
      messages := updatedMessages;
      Commit(updatedMessages, env.firstCommitTime, env.firstSaveFails);
      inputValue := "";
      isLoading := true;
    }

    /**
     * The part of `handleSend` after the backend call settled with `result`:
     * the reply, or the error bubble, is appended and committed, and loading
     * is cleared whatever the outcome.
     */
    method FinishSend(result: Result<string, ServiceError>, env: SendEnv)
      modifies this, app, app.storage
      ensures messages == old(messages) + [ReplyMessage(result, env.replyId, env.replyTime)]
      ensures inputValue == old(inputValue) && !isLoading
      ensures trace == old(trace) + [Committed(currentSessionId, messages)]
      ensures currentSessionId == old(currentSessionId)
      ensures app.selectedCharacter == old(app.selectedCharacter) && app.activeSessionId == old(app.activeSessionId)
      ensures old(app.selectedCharacter).None? ==>
        app.allSessions == old(app.allSessions) && app.storage.item == old(app.storage.item)
      ensures old(app.selectedCharacter).Some? ==>
        app.allSessions == Upsert(old(app.allSessions), currentSessionId, old(app.selectedCharacter).value.id,
                                  messages, env.secondCommitTime)
      ensures old(app.selectedCharacter).Some? ==>
        app.storage.item == if env.secondSaveFails then old(app.storage.item) else Some(Document(app.allSessions))
      ensures old(app.selectedCharacter).Some? && currentSessionId != "" ==>
        ActiveMessages(app.allSessions, Some(currentSessionId)) == messages
    {
      var reply := ReplyMessage(result, env.replyId, env.replyTime);
      var finalMessages := messages + [reply];
      messages := finalMessages;
      Commit(finalMessages, env.secondCommitTime, env.secondSaveFails);
      isLoading := false;
      if app.selectedCharacter.Some? {
        LastWriteWins(old(app.allSessions), currentSessionId, app.selectedCharacter.value.id,
                      finalMessages, env.secondCommitTime);
      }
    }

    /**
     * `handleSend` past its guard: `BeginSend`, the backend asked with exactly
     * the user's text while the input is empty and loading is set, then
     * `FinishSend` with the outcome.
     */
    method SendInput(env: SendEnv)
      modifies this, app, app.storage
      ensures currentSessionId == old(currentSessionId)
      ensures app.selectedCharacter == old(app.selectedCharacter) && app.activeSessionId == old(app.activeSessionId)
      ensures
        var userMsg := Message(env.userId, old(inputValue), User, env.userTime, false);
        var first := old(messages) + [userMsg];
        var result := SendMessageToBackend(character.apiEndpoint, old(inputValue), env.response);
        var second := first + [ReplyMessage(result, env.replyId, env.replyTime)];
        && messages == second && inputValue == "" && !isLoading
        && trace == old(trace) + [
             Committed(currentSessionId, first),
             BackendCalled(BackendRequest(character.apiEndpoint, old(inputValue)), "", true),
             Committed(currentSessionId, second)]
        && (old(app.selectedCharacter).None? ==>
              app.allSessions == old(app.allSessions) && app.storage.item == old(app.storage.item))
        && (old(app.selectedCharacter).Some? ==>
              var c := old(app.selectedCharacter).value.id;
              var afterFirst := Upsert(old(app.allSessions), currentSessionId, c, first, env.firstCommitTime);
              && app.allSessions == Upsert(afterFirst, currentSessionId, c, second, env.secondCommitTime)
              // the cell holds the last collection whose write succeeded
              && app.storage.item ==
                   if !env.secondSaveFails then Some(Document(app.allSessions))
                   else if !env.firstSaveFails then Some(Document(afterFirst))
                   else old(app.storage.item))
      // the store then holds, for this session, exactly what the view shows
      ensures old(app.selectedCharacter).Some? && currentSessionId != "" ==>
        ActiveMessages(app.allSessions, Some(currentSessionId)) == messages
    {
      ghost var trace0 := trace;
      var userMsg := BeginSend(env);
      ghost var first := messages;
      var request := BackendRequest(character.apiEndpoint, userMsg.text);
      trace := trace + [BackendCalled(request, inputValue, isLoading)];
      var result := SendMessageToBackend(character.apiEndpoint, userMsg.text, env.response);
      FinishSend(result, env);
      assert trace == trace0 + [Committed(currentSessionId, first), BackendCalled(request, "", true),
                                Committed(currentSessionId, messages)];
    }

    /**
     * `handleSend`: input that trims to the empty string changes nothing and
     * commits nothing; any other input is sent by `SendInput`.
     */
    method HandleSend(env: SendEnv)
      modifies this, app, app.storage
      ensures Trim(old(inputValue)) == "" ==>
        && messages == old(messages) && inputValue == old(inputValue) && isLoading == old(isLoading)
        && trace == old(trace) && currentSessionId == old(currentSessionId)
        && app.selectedCharacter == old(app.selectedCharacter) && app.activeSessionId == old(app.activeSessionId)
        && app.allSessions == old(app.allSessions) && app.storage.item == old(app.storage.item)
      ensures Trim(old(inputValue)) != "" ==>
        var userMsg := Message(env.userId, old(inputValue), User, env.userTime, false);
        var first := old(messages) + [userMsg];
        var result := SendMessageToBackend(character.apiEndpoint, old(inputValue), env.response);
        var second := first + [ReplyMessage(result, env.replyId, env.replyTime)];
        && messages == second && inputValue == "" && !isLoading
        && trace == old(trace) + [
             Committed(currentSessionId, first),
             BackendCalled(BackendRequest(character.apiEndpoint, old(inputValue)), "", true),
             Committed(currentSessionId, second)]
        && currentSessionId == old(currentSessionId)
        && app.selectedCharacter == old(app.selectedCharacter) && app.activeSessionId == old(app.activeSessionId)
        && (old(app.selectedCharacter).None? ==>
              app.allSessions == old(app.allSessions) && app.storage.item == old(app.storage.item))
        && (old(app.selectedCharacter).Some? ==>
              var c := old(app.selectedCharacter).value.id;
              var afterFirst := Upsert(old(app.allSessions), currentSessionId, c, first, env.firstCommitTime);
              && app.allSessions == Upsert(afterFirst, currentSessionId, c, second, env.secondCommitTime)
              // the cell holds the last collection whose write succeeded
              && app.storage.item ==
                   if !env.secondSaveFails then Some(Document(app.allSessions))
                   else if !env.firstSaveFails then Some(Document(afterFirst))
                   else old(app.storage.item))
        && (old(app.selectedCharacter).Some? && currentSessionId != "" ==>
              ActiveMessages(app.allSessions, Some(currentSessionId)) == messages)
      // a send keeps the view mounted, and the controller's active messages are then the view's
      ensures old(Mounted()) ==> Mounted()
      ensures Trim(old(inputValue)) != "" && old(Mounted()) ==>
        ActiveMessages(app.allSessions, app.activeSessionId) == messages
    {
      if Trim(inputValue) == "" {
        return;
      }
      SendInput(env);
    }
  }
}
